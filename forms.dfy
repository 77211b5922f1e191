/**
 * The WTForms field rules of the storefront's forms, as predicates on the
 * submitted text of each field (an absent field is the empty string).
 *
 * The validator semantics are those of WTForms: `DataRequired` fails on text
 * that `str.strip()` empties; `Optional` ends the chain, with no error, on such
 * text; `Length(min, max)` counts characters, `max = -1` meaning no bound;
 * `Regexp` uses `re.match`, so a pattern's `$` also matches just before a final
 * newline. A field is valid when no validator of its chain fails, so the chain
 * is the conjunction of its validators.
 */
module Forms {
  import opened Wrappers
  import opened Text
  import opened Models

  // ---------------------------------------------------------------------------
  // Validators

  /** Text that `Optional()` treats as not given and `DataRequired()` rejects. */
  predicate Blank(d: string) {
    Strip(d) == []
  }

  predicate DataRequired(d: string) {
    !Blank(d)
  }

  predicate LengthOk(d: string, min: int, max: int) {
    min <= |d| && (max == -1 || |d| <= max)
  }

  /**
   * `re.match('^…$', d)` for a pattern whose body matches exactly the strings
   * `body` accepts: `$` matches at the end or before a newline that ends `d`.
   */
  predicate DollarMatch(body: string -> bool, d: string) {
    body(d) || (|d| > 0 && d[|d| - 1] == '\n' && body(d[..|d| - 1]))
  }

  /** `[0-9\s]*` */
  predicate CardNumberText(s: string) {
    forall i :: 0 <= i < |s| ==> IsDigit(s[i]) || IsSpace(s[i])
  }

  /** `(0[1-9]|1[0-2])\/\d{2}` */
  predicate ExpiryText(s: string) {
    && |s| == 5
    && ((s[0] == '0' && '1' <= s[1] <= '9') || (s[0] == '1' && '0' <= s[1] <= '2'))
    && s[2] == '/' && IsDigit(s[3]) && IsDigit(s[4])
  }

  /** `\d{3,4}` */
  predicate CvvText(s: string) {
    3 <= |s| <= 4 && AllDigits(s)
  }

  /** `[0-9a-zA-Z]+` */
  predicate AccountText(s: string) {
    |s| >= 1 && forall i :: 0 <= i < |s| ==> IsAsciiAlnum(s[i])
  }

  // ---------------------------------------------------------------------------
  // CheckoutForm fields

  /** `card_number`: `Optional(), Length(16, 20), Regexp(r'^[0-9\s]*$')`. */
  predicate CardNumberField(d: string) {
    Blank(d) || (LengthOk(d, 16, 20) && DollarMatch(CardNumberText, d))
  }

  /** `card_expiry`: `Optional(), Length(5, 5), Regexp(r'^(0[1-9]|1[0-2])\/\d{2}$')`. */
  predicate ExpiryField(d: string) {
    Blank(d) || (LengthOk(d, 5, 5) && DollarMatch(ExpiryText, d))
  }

  /** `card_cvv` as written: `Optional(), Length(3, 4), Regexp(r'^\d{3,4}$')`. */
  predicate CvvFieldAsWritten(d: string) {
    Blank(d) || (LengthOk(d, 3, 4) && DollarMatch(CvvText, d))
  }

  /** `bank_account` as written: `Optional(), Length(10, 30), Regexp(r'^[0-9a-zA-Z]+$')`. */
  predicate AccountFieldAsWritten(d: string) {
    Blank(d) || (LengthOk(d, 10, 30) && DollarMatch(AccountText, d))
  }

  /** `card_cvv` with the pattern anchored at the very end (`\Z`), as its message says: 3 or 4 digits. */
  function CvvField(d: string): (ok: bool)
    ensures ok && !Blank(d) ==> 3 <= |d| <= 4 && AllDigits(d)
    ensures ok ==> CvvFieldAsWritten(d)
  {
    Blank(d) || (LengthOk(d, 3, 4) && CvvText(d))
  }

  /** `bank_account` anchored at the very end: letters and digits only. */
  function AccountField(d: string): (ok: bool)
    ensures ok && !Blank(d) ==> 10 <= |d| <= 30 && forall i :: 0 <= i < |d| ==> IsAsciiAlnum(d[i])
    ensures ok ==> AccountFieldAsWritten(d)
  {
    Blank(d) || (LengthOk(d, 10, 30) && AccountText(d))
  }

  const PaymentMethods: seq<string> := ["cash_on_delivery", "credit_card", "debit_card", "bank_transfer"]

  /** What a `SelectField` with `DataRequired()` accepts: a non-blank value among its choices. */
  predicate ChoiceField(d: string, choices: seq<string>) {
    d in choices && DataRequired(d)
  }

  /**
   * The submitted checkout fields. A text field missing from the request reads
   * as the empty string, except `notes`, which is stored as it is and so keeps
   * `None` for a missing field.
   */
  datatype CheckoutData = CheckoutData(
    shippingAddress: string,
    paymentMethod: string,
    cardNumber: string,
    cardExpiry: string,
    cardCvv: string,
    bankAccount: string,
    notes: Option<string>)

  /** `CheckoutForm().validate()` with the corrected CVV and account patterns. */
  predicate CheckoutValid(f: CheckoutData) {
    && DataRequired(f.shippingAddress) && LengthOk(f.shippingAddress, 10, -1)
    && ChoiceField(f.paymentMethod, PaymentMethods)
    && CardNumberField(f.cardNumber)
    && ExpiryField(f.cardExpiry)
    && CvvField(f.cardCvv)
    && AccountField(f.bankAccount)
  }

  /** `CheckoutForm().validate()` as written. */
  predicate CheckoutValidAsWritten(f: CheckoutData) {
    && DataRequired(f.shippingAddress) && LengthOk(f.shippingAddress, 10, -1)
    && ChoiceField(f.paymentMethod, PaymentMethods)
    && CardNumberField(f.cardNumber)
    && ExpiryField(f.cardExpiry)
    && CvvFieldAsWritten(f.cardCvv)
    && AccountFieldAsWritten(f.bankAccount)
  }

  // ---------------------------------------------------------------------------
  // Account forms

  /** Whether some account already uses the username / the email. */
  predicate UsernameTaken(users: map<Id, User>, name: string) {
    exists k :: k in users && users[k].username == name
  }

  predicate EmailTaken(users: map<Id, User>, email: string) {
    exists k :: k in users && users[k].email == email
  }

  datatype RegistrationData = RegistrationData(
    username: string, email: string, firstName: string, lastName: string,
    password: string, password2: string, phone: string)

  /**
   * `RegistrationForm().validate()` against the `users` table. `isEmail` is the
   * `Email()` validator, whose syntax rules belong to a library.
   */
  predicate RegistrationValid(f: RegistrationData, users: map<Id, User>, isEmail: string -> bool) {
    && DataRequired(f.username) && LengthOk(f.username, 4, 80) && !UsernameTaken(users, f.username)
    && DataRequired(f.email) && isEmail(f.email) && !EmailTaken(users, f.email)
    && DataRequired(f.firstName) && LengthOk(f.firstName, 1, 100)
    && DataRequired(f.lastName) && LengthOk(f.lastName, 1, 100)
    && DataRequired(f.password) && LengthOk(f.password, 8, -1)
    && DataRequired(f.password2) && f.password2 == f.password
    && (Blank(f.phone) || LengthOk(f.phone, -1, 20))
  }

  datatype ProfileData = ProfileData(
    username: string, email: string, firstName: string, lastName: string, phone: string, address: string)

  /** `UpdateProfileForm(original_username, original_email).validate()` against the `users` table. */
  predicate ProfileValid(f: ProfileData, originalUsername: string, originalEmail: string,
                         users: map<Id, User>, isEmail: string -> bool) {
    && DataRequired(f.username) && LengthOk(f.username, 4, 80)
    && (f.username != originalUsername ==> !UsernameTaken(users, f.username))
    && DataRequired(f.email) && isEmail(f.email)
    && (f.email != originalEmail ==> !EmailTaken(users, f.email))
    && DataRequired(f.firstName) && LengthOk(f.firstName, 1, 100)
    && DataRequired(f.lastName) && LengthOk(f.lastName, 1, 100)
    && (Blank(f.phone) || LengthOk(f.phone, -1, 20))
  }

  datatype PasswordChangeData = PasswordChangeData(oldPassword: string, password: string, password2: string)

  /** `ChangePasswordForm().validate()`. */
  predicate PasswordChangeValid(f: PasswordChangeData) {
    && DataRequired(f.oldPassword)
    && DataRequired(f.password) && LengthOk(f.password, 8, -1)
    && DataRequired(f.password2) && f.password2 == f.password
  }

  /** `LoginForm().validate()`. */
  predicate LoginValid(email: string, password: string, isEmail: string -> bool) {
    DataRequired(email) && isEmail(email) && DataRequired(password)
  }

  /** `EnableMFAForm` and `VerifyMFAForm`: `DataRequired(), Length(6, 6)`. */
  predicate MfaCodeValid(code: string) {
    DataRequired(code) && LengthOk(code, 6, 6)
  }

  /** `OrderStatusForm.status`. */
  predicate StatusValid(status: string) {
    ChoiceField(status, StatusChoices)
  }

  // ---------------------------------------------------------------------------
  // Properties

  /** `DataRequired` accepts exactly the text that has a non-whitespace character. */
  lemma DataRequiredMeaning(d: string)
    ensures DataRequired(d) <==> exists i :: 0 <= i < |d| && !IsSpace(d[i])
  {
    StripEmptyIffAllSpace(d);
  }

  /** A valid registration has a 4–80 character username and an 8+ character password confirmed exactly. */
  lemma RegistrationRules(f: RegistrationData, users: map<Id, User>, isEmail: string -> bool)
    requires RegistrationValid(f, users, isEmail)
    ensures 4 <= |f.username| <= 80 && |f.password| >= 8 && f.password2 == f.password
    ensures forall k :: k in users ==> users[k].username != f.username && users[k].email != f.email
  {
  }

  /** Registering what a valid form holds under a fresh key keeps usernames and emails unique. */
  lemma RegistrationKeepsAccountsUnique(f: RegistrationData, users: map<Id, User>, isEmail: string -> bool,
                                        id: Id, u: User)
    requires UniqueAccounts(users) && id !in users
    requires RegistrationValid(f, users, isEmail) && u.username == f.username && u.email == f.email
    ensures UniqueAccounts(users[id := u])
  {
    var users' := users[id := u];
    forall a, b | a in users' && b in users' && a != b
      ensures users'[a].email != users'[b].email && users'[a].username != users'[b].username
    {
      if a == id {
        assert users'[b] == users[b];
      } else if b == id {
        assert users'[a] == users[a];
      }
    }
  }

  /**
   * The profile form may skip the uniqueness query for the unchanged username or
   * email: saving a valid form over the current user's row keeps both unique.
   */
  lemma ProfileKeepsAccountsUnique(f: ProfileData, users: map<Id, User>, isEmail: string -> bool, me: Id)
    requires UniqueAccounts(users) && me in users
    requires ProfileValid(f, users[me].username, users[me].email, users, isEmail)
    ensures UniqueAccounts(users[me := users[me].(username := f.username, email := f.email)])
  {
    var u := users[me].(username := f.username, email := f.email);
    var users' := users[me := u];
    forall a, b | a in users' && b in users' && a != b
      ensures users'[a].email != users'[b].email && users'[a].username != users'[b].username
    {
      if a == me {
        assert users'[b] == users[b];
      } else if b == me {
        assert users'[a] == users[a];
      }
    }
  }

  /** A valid password change has a new password of 8+ characters confirmed exactly. */
  lemma PasswordChangeRules(f: PasswordChangeData)
    requires PasswordChangeValid(f)
    ensures |f.password| >= 8 && f.password2 == f.password
  {
  }

  /** Only the length of an MFA code is checked: six letters pass, five digits do not. */
  lemma MfaCodeLengthOnly()
    ensures MfaCodeValid("abcdef")
    ensures !MfaCodeValid("12345")
  {
    assert !IsSpace('a');
    assert Strip("abcdef") != [] by { StripEmptyIffAllSpace("abcdef"); }
  }

  /** A valid status is one of the five `Order.STATUS_CHOICES`. */
  lemma StatusInChoices(status: string)
    requires StatusValid(status)
    ensures status == "pending" || status == "processing" || status == "shipped" || status == "delivered" || status == "cancelled"
  {
  }

  /** A valid, non-blank card number has 16–20 characters, each an ASCII digit or whitespace. */
  lemma CardNumberRules(d: string)
    requires CardNumberField(d) && !Blank(d)
    ensures 16 <= |d| <= 20 && CardNumberText(d)
  {
    if !CardNumberText(d) {
      var t := d[..|d| - 1];
      assert forall i :: 0 <= i < |t| ==> t[i] == d[i];
      assert IsSpace('\n');
    }
  }

  /** A valid, non-blank expiry is `MM/YY` with the month in 01–12. */
  lemma ExpiryRules(d: string)
    requires ExpiryField(d) && !Blank(d)
    ensures ExpiryText(d)
  {
  }

  /** As written, the `$` of the CVV pattern lets a trailing newline through. */
  lemma CvvNewlineAccepted()
    ensures CvvFieldAsWritten("123\n")
    ensures !CvvField("123\n")
  {
    var d := "123\n";
    assert d[..3] == "123";
    assert !IsSpace('1');
    StripEmptyIffAllSpace(d);
  }

  /** As written, the `$` of the account pattern lets a trailing newline through. */
  lemma AccountNewlineAccepted()
    ensures AccountFieldAsWritten("1234567890\n")
    ensures !AccountField("1234567890\n")
  {
    var d := "1234567890\n";
    assert d[..10] == "1234567890";
    assert !IsSpace('1');
    StripEmptyIffAllSpace(d);
  }
}
