/**
 * The login and two-factor routes: `login`, `logout`, `enable_2fa`,
 * `verify_2fa_login` and `disable_2fa`, over the `users` table and the
 * client's session, and the open-redirect guard `is_safe_url`.
 *
 * Foreign calls are parameters: `checkPassword(hash, password)` is bcrypt's
 * check, `verify(secret, code)` is `pyotp.TOTP(secret).verify(code)` at the
 * moment of the request, `isEmail` is WTForms' `Email()` and `resolve(target)`
 * is `urlparse(urljoin(request.host_url, target))`. The requests' client
 * address is `remote` and the clock reads `now`.
 */
module Auth {
  import opened Wrappers
  import opened Models
  import opened Forms
  import opened SessionSecurity

  /** The parts of a parsed URL `is_safe_url` compares. */
  datatype Url = Url(scheme: string, netloc: string)

  /** `is_safe_url`: the resolved target is `http` or `https` and on this server's host. */
  predicate IsSafeUrl(host: Url, target: Url) {
    (target.scheme == "http" || target.scheme == "https") && target.netloc == host.netloc
  }

  /** `url_for('main.index')`. */
  const IndexPath: string := "/"

  /** The page a completed login redirects to: `next` when it is given, non-empty and safe, else the index. */
  function NextPage(next: Option<string>, host: Url, resolve: string -> Url): (r: string)
    ensures r == IndexPath || (next == Some(r) && r != "" && IsSafeUrl(host, resolve(r)))
    ensures next.Some? && next.value != "" && IsSafeUrl(host, resolve(next.value)) ==> r == next.value
    ensures next.None? || next.value == "" ==> r == IndexPath
  {
    if next.None? || next.value == "" || !IsSafeUrl(host, resolve(next.value)) then IndexPath else next.value
  }

  /** The account with `email`, which `unique=True` makes at most one. */
  ghost function AccountFor(users: map<Id, User>, email: string): Option<Id> {
    if EmailTaken(users, email) then var k :| k in users && users[k].email == email; Some(k) else None
  }

  lemma AccountForOf(users: map<Id, User>, email: string, k: Id)
    requires UniqueAccounts(users) && k in users && users[k].email == email
    ensures AccountFor(users, email) == Some(k)
  {
  }

  /** `User.query.filter_by(email=email).first()`, scanning the keys in order. */
  method FindByEmail(users: map<Id, User>, next: Id, email: string) returns (r: Option<Id>)
    requires KeysIn(users, next) && UniqueAccounts(users)
    ensures r == AccountFor(users, email)
    ensures r.Some? ==> r.value in users && users[r.value].email == email
  {
    var k := 1;
    while k < next
      invariant 1 <= k <= if next < 1 then 1 else next
      invariant forall j :: j in users && j < k ==> users[j].email != email
    {
      if k in users && users[k].email == email {
        AccountForOf(users, email, k);
        return Some(k);
      }
      k := k + 1;
    }
    return None;
  }


  /** An account that has two-factor enabled has a secret to check codes against. */
  predicate MfaConsistent(users: map<Id, User>) {
    forall k :: k in users && users[k].mfaEnabled ==> users[k].mfaSecret.Some? && users[k].mfaSecret.value != ""
  }

  /**
   * `current_user` when it is authenticated: the user the session names, while
   * `user_loader` still finds the row and the account is active.
   */
  function CurrentUser(s: Session, users: map<Id, User>): (r: Option<Id>)
    reads s
    ensures r.Some? <==> s.IsAuthenticated(ActiveIds(users))
    ensures r.Some? ==> r == s.principal && r.value in users && users[r.value].isActive
  {
    if s.principal.Some? && s.principal.value in users && users[s.principal.value].isActive then s.principal else None
  }

  /**
   * Whoever `current_user` is, the security keys are bound to that user: the
   * state every route below keeps.
   */
  ghost predicate Bound(s: Session, users: map<Id, User>)
    reads s
  {
    CurrentUser(s, users).Some? ==> s.userId == s.principal
  }

  // ---------------------------------------------------------------------------
  // login

  datatype LoginOutcome = AlreadyAuthenticated | LoginFormShown | BadCredentials | Deactivated | MfaPending | LoggedIn(next: string)

  /**
   * `login()`: `submitted` is whether the request is a POST and
   * `email`/`password` are the submitted fields; `next` is the `next` query
   * argument.
   */
  method Login(db: Db, s: Session, submitted: bool, email: string, password: string,
               isEmail: string -> bool, checkPassword: (string, string) -> bool,
               remote: string, now: int, next: Option<string>, host: Url, resolve: string -> Url)
    returns (outcome: LoginOutcome)
    requires db.Valid() && Bound(s, db.users)
    modifies s
    ensures Bound(s, db.users)
    ensures var acct := AccountFor(db.users, email);
      var formOk := !old(CurrentUser(s, db.users)).Some? && submitted && LoginValid(email, password, isEmail);
      var known := formOk && acct.Some? && checkPassword(db.users[acct.value].passwordHash, password);
      && (outcome == AlreadyAuthenticated <==> old(CurrentUser(s, db.users)).Some?)
      && (outcome == LoginFormShown <==> !old(CurrentUser(s, db.users)).Some? && !(submitted && LoginValid(email, password, isEmail)))
      && (outcome == BadCredentials <==> formOk && !known)
      && (outcome == Deactivated <==> known && !db.users[acct.value].isActive)
      && (outcome == MfaPending <==> known && db.users[acct.value].isActive && db.users[acct.value].mfaEnabled)
      && (outcome.LoggedIn? <==> known && db.users[acct.value].isActive && !db.users[acct.value].mfaEnabled)
      && (outcome == MfaPending ==>
            s.State() == old(s.State()).(mfaUserId := acct) && s.principal == old(s.principal) && s.permanent == old(s.permanent))
      && (outcome.LoggedIn? ==>
            && s.principal == acct && s.State() == AfterInit(old(s.State()), acct.value, remote, now) && s.permanent
            && outcome.next == NextPage(next, host, resolve))
    ensures !(outcome == MfaPending || outcome.LoggedIn?) ==>
      s.State() == old(s.State()) && s.principal == old(s.principal) && s.permanent == old(s.permanent)
  {
    if CurrentUser(s, db.users).Some? {
      return AlreadyAuthenticated;
    }
    if !(submitted && LoginValid(email, password, isEmail)) {
      return LoginFormShown;
    }
    var found := FindByEmail(db.users, db.nextId, email);
    if found.None? || !checkPassword(db.users[found.value].passwordHash, password) {
      return BadCredentials;
    }
    var uid := found.value;
    var user := db.users[uid];
    if !user.isActive {
      return Deactivated;
    }
    if user.mfaEnabled {
      s.mfaUserId := Some(uid);
      return MfaPending;
    }
    s.principal := Some(uid);
    s.InitSecurity(uid, remote, now);
    outcome := LoggedIn(NextPage(next, host, resolve));
  }

  // ---------------------------------------------------------------------------
  // logout

  datatype RouteGuard = NotLoggedIn | Done

  /** `logout()`, behind `@login_required`. */
  method LogoutRoute(db: Db, s: Session) returns (outcome: RouteGuard)
    requires Bound(s, db.users)
    modifies s
    ensures Bound(s, db.users)
    ensures outcome == NotLoggedIn <==> old(CurrentUser(s, db.users)).None?
    ensures outcome == Done ==> s.principal == None && s.State() == Cleared
    ensures outcome == NotLoggedIn ==>
      s.State() == old(s.State()) && s.principal == old(s.principal) && s.permanent == old(s.permanent)
  {
    if CurrentUser(s, db.users).None? {
      return NotLoggedIn;
    }
    s.Logout();
    s.ClearSecurity();
    return Done;
  }

  // ---------------------------------------------------------------------------
  // enable_2fa

  datatype EnrolOutcome = EnrolNotLoggedIn | AlreadyEnabled | SetupExpired | EnrolFormShown | WrongEnrolCode | Enabled

  /**
   * `enable_2fa()`: `isPost` tells a POST from a GET, `generated` is what
   * `pyotp.random_base32()` returns on a GET, and `code` the submitted code.
   */
  method Enable2fa(db: Db, s: Session, isPost: bool, generated: string, code: string, verify: (string, string) -> bool)
    returns (outcome: EnrolOutcome)
    requires db.Valid() && Bound(s, db.users)
    modifies db, s
    ensures db.Valid() && Bound(s, db.users)
    ensures var me := old(CurrentUser(s, db.users));
      && (outcome == EnrolNotLoggedIn <==> me.None?)
      && (me.None? ==> db.users == old(db.users) && s.State() == old(s.State()))
    ensures var me := old(CurrentUser(s, db.users));
      me.Some? ==>
        var user := old(db.users)[me.value];
        var secret := if isPost then old(s.mfaSecretSetup) else Some(generated);
        var staged := !user.mfaEnabled && secret.Some? && secret.value != "";
        var answered := staged && isPost && MfaCodeValid(code);
        && (outcome == AlreadyEnabled <==> user.mfaEnabled)
        && (outcome == SetupExpired <==> !user.mfaEnabled && (secret.None? || secret.value == ""))
        && (outcome == EnrolFormShown <==> staged && !(isPost && MfaCodeValid(code)))
        && (outcome == WrongEnrolCode <==> answered && !verify(secret.value, code))
        && (outcome == Enabled <==> answered && verify(secret.value, code))
        && (outcome == Enabled ==>
              db.users == old(db.users)[me.value := user.(mfaSecret := secret, mfaEnabled := true)]
              && s.State() == old(s.State()).(mfaSecretSetup := None))
        && (outcome != Enabled ==>
              && db.users == old(db.users)
              && s.State() == if !isPost && !user.mfaEnabled then old(s.State()).(mfaSecretSetup := Some(generated)) else old(s.State()))
    ensures MfaConsistent(old(db.users)) ==> MfaConsistent(db.users)
    ensures s.principal == old(s.principal) && s.permanent == old(s.permanent)
    ensures db.categories == old(db.categories) && db.products == old(db.products) && db.cart == old(db.cart)
    ensures db.orders == old(db.orders) && db.orderItems == old(db.orderItems) && db.nextId == old(db.nextId)
  {
    var me := CurrentUser(s, db.users);
    if me.None? {
      return EnrolNotLoggedIn;
    }
    var uid := me.value;
    if db.users[uid].mfaEnabled {
      return AlreadyEnabled;
    }
    var secret: Option<string>;
    if !isPost {
      s.mfaSecretSetup := Some(generated);
      secret := Some(generated);
    } else {
      secret := s.mfaSecretSetup;
    }
    if secret.None? || secret.value == "" {
      return SetupExpired;
    }
    if !(isPost && MfaCodeValid(code)) {
      return EnrolFormShown;
    }
    if !verify(secret.value, code) {
      return WrongEnrolCode;
    }
    db.SetMfa(uid, secret, true);
    s.mfaSecretSetup := None;
    return Enabled;
  }

  // ---------------------------------------------------------------------------
  // verify_2fa_login

  datatype VerifyOutcome = VerifyAlreadyAuthenticated | NoPendingLogin | VerifyFormShown | WrongLoginCode | VerifyServerError | MfaLoggedIn(next: string)

  /**
   * `verify_2fa_login()`: the second step of a login staged in `mfa_user_id`.
   * `pyotp.TOTP(None)` cannot check a code: an account whose secret is gone
   * raises, which is the server error.
   */
  method Verify2faLogin(db: Db, s: Session, isPost: bool, code: string, verify: (string, string) -> bool,
                        remote: string, now: int, next: Option<string>, host: Url, resolve: string -> Url)
    returns (outcome: VerifyOutcome)
    requires db.Valid() && Bound(s, db.users)
    modifies s
    ensures Bound(s, db.users)
    ensures var pending := old(s.mfaUserId);
      var found := !old(CurrentUser(s, db.users)).Some? && pending.Some? && pending.value in db.users;
      && (outcome == VerifyAlreadyAuthenticated <==> old(CurrentUser(s, db.users)).Some?)
      && (outcome == NoPendingLogin <==> !old(CurrentUser(s, db.users)).Some? && !(pending.Some? && pending.value in db.users))
      && (outcome == VerifyFormShown <==> found && !(isPost && MfaCodeValid(code)))
      && (found && isPost && MfaCodeValid(code) ==>
            var user := db.users[pending.value];
            && (outcome == VerifyServerError <==> user.mfaSecret.None?)
            && (outcome == WrongLoginCode <==> user.mfaSecret.Some? && !verify(user.mfaSecret.value, code))
            && (outcome.MfaLoggedIn? <==> user.mfaSecret.Some? && verify(user.mfaSecret.value, code))
            && (outcome.MfaLoggedIn? ==>
                  && s.principal == (if user.isActive then pending else old(s.principal))
                  && s.State() == AfterInit(old(s.State()), pending.value, remote, now).(mfaUserId := None)
                  && s.permanent
                  && outcome.next == NextPage(next, host, resolve)))
    ensures outcome == VerifyServerError && MfaConsistent(db.users) ==> !db.users[old(s.mfaUserId).value].mfaEnabled
    ensures !outcome.MfaLoggedIn? ==>
      s.State() == old(s.State()) && s.principal == old(s.principal) && s.permanent == old(s.permanent)
  {
    if CurrentUser(s, db.users).Some? {
      return VerifyAlreadyAuthenticated;
    }
    var pending := s.mfaUserId;
    if pending.None? || pending.value !in db.users {
      return NoPendingLogin;
    }
    var uid := pending.value;
    var user := db.users[uid];
    if !(isPost && MfaCodeValid(code)) {
      return VerifyFormShown;
    }
    if user.mfaSecret.None? {
      return VerifyServerError;
    }
    if !verify(user.mfaSecret.value, code) {
      return WrongLoginCode;
    }
    if user.isActive {
      s.principal := Some(uid);
    }
    s.InitSecurity(uid, remote, now);
    s.mfaUserId := None;
    outcome := MfaLoggedIn(NextPage(next, host, resolve));
  }

  // ---------------------------------------------------------------------------
  // disable_2fa

  /** `disable_2fa()`, behind `@login_required`: both two-factor columns are reset whatever they held. */
  method Disable2fa(db: Db, s: Session) returns (outcome: RouteGuard)
    requires db.Valid()
    modifies db
    ensures db.Valid()
    ensures outcome == NotLoggedIn <==> CurrentUser(s, old(db.users)).None?
    ensures outcome == Done ==>
      var me := s.principal.value;
      db.users == old(db.users)[me := old(db.users)[me].(mfaSecret := None, mfaEnabled := false)]
    ensures outcome == NotLoggedIn ==> db.users == old(db.users)
    ensures MfaConsistent(old(db.users)) ==> MfaConsistent(db.users)
    ensures db.categories == old(db.categories) && db.products == old(db.products) && db.cart == old(db.cart)
    ensures db.orders == old(db.orders) && db.orderItems == old(db.orderItems) && db.nextId == old(db.nextId)
  {
    var me := CurrentUser(s, db.users);
    if me.None? {
      return NotLoggedIn;
    }
    db.SetMfa(me.value, None, false);
    return Done;
  }
}
