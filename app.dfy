/**
 * The application factory's own behaviour: the session check run before every
 * request, the two template filters, and which classes get audit listeners.
 */
module App {
  import opened Wrappers
  import opened Text
  import opened Models
  import opened SessionSecurity
  import Audit

  // ---------------------------------------------------------------------------
  // The before-request session check

  /** Endpoints the check skips: a set endpoint starting with `static` or `uploaded_file`. */
  predicate Exempt(endpoint: Option<string>) {
    endpoint.Some? &&
    (StartsWith(endpoint.value, "static") || StartsWith(endpoint.value, "uploaded_file"))
  }

  datatype GateOutcome = Skipped | Proceed | RedirectToLogin

  /**
   * `validate_session_security()`: an exempt endpoint passes untouched; a
   * session whose `current_user` is authenticated (it names an active user of `users`)
   * and fails `validate_session()` is logged out, its security keys are cleared
   * and the request is sent to the login page. Any other session passes as it is.
   */
  method ValidateSessionSecurity(s: Session, users: map<Id, User>, endpoint: Option<string>, remote: string, now: int)
    returns (outcome: GateOutcome)
    modifies s
    ensures outcome == Skipped <==> Exempt(endpoint)
    ensures outcome == RedirectToLogin <==>
      !Exempt(endpoint) && !Verdict(old(s.State()), old(s.IsAuthenticated(ActiveIds(users))), remote, now)
    ensures outcome == Skipped ==> s.State() == old(s.State()) && s.principal == old(s.principal)
    ensures outcome == Proceed && old(s.IsAuthenticated(ActiveIds(users))) ==>
      s.State() == old(s.State()).(lastActivity := Some(At(now))) && s.principal == old(s.principal)
    ensures outcome == Proceed && !old(s.IsAuthenticated(ActiveIds(users))) ==>
      s.State() == old(s.State()) && s.principal == old(s.principal)
    ensures outcome == RedirectToLogin ==> s.principal == None && s.State() == Cleared
    ensures s.permanent == old(s.permanent)
  {
    if Exempt(endpoint) {
      return Skipped;
    }
    if s.IsAuthenticated(ActiveIds(users)) {
      var ok := s.Validate(ActiveIds(users), remote, now);
      if !ok {
        s.Logout();
        s.ClearSecurity();
        return RedirectToLogin;
      }
    }
    return Proceed;
  }

  /**
   * A session that just passed the check passes it again at the same instant
   * from the same address: the refreshed activity stamp keeps it valid.
   */
  lemma PassedCheckIsStable(st: SecurityState, remote: string, now: int)
    requires Verdict(st, true, remote, now)
    ensures Verdict(st.(lastActivity := Some(At(now))), true, remote, now)
  {
    ValidImpliesRecentLogin(st, remote, now);
  }

  // ---------------------------------------------------------------------------
  // The `nl2br` filter

  const Br: string := "<br>"

  /** `nl2br(value)`: `None` renders as the empty string, every newline gains a `<br>` before it. */
  function Nl2Br(value: Option<string>): (html: string)
    ensures value.None? ==> html == ""
  {
    if value.None? then "" else ReplaceChar(value.value, '\n', Br + "\n")
  }

  /** Every newline of `h` is preceded by `<br>`. */
  predicate BrBeforeNewlines(h: string) {
    forall i :: 0 <= i < |h| && h[i] == '\n' ==> 4 <= i && h[i - 4..i] == Br
  }

  /** In `nl2br`'s output every newline is preceded by `<br>`. */
  lemma {:induction false} NewlinesFollowBr(s: string)
    ensures BrBeforeNewlines(ReplaceChar(s, '\n', Br + "\n"))
    decreases |s|
  {
    if s != [] {
      var t := ReplaceChar(s[1..], '\n', Br + "\n");
      NewlinesFollowBr(s[1..]);
      var head := if s[0] == '\n' then Br + "\n" else [s[0]];
      var h := head + t;
      assert h == ReplaceChar(s, '\n', Br + "\n");
      forall i | 0 <= i < |h| && h[i] == '\n' ensures 4 <= i && h[i - 4..i] == Br {
        if i < |head| {
          assert head[i] == '\n';
          assert s[0] == '\n' && i == 4;
          assert h[0..4] == head[0..4];
        } else {
          var j := i - |head|;
          assert t[j] == '\n';
          assert 4 <= j && t[j - 4..j] == Br;
          assert h[i - 4..i] == t[j - 4..j];
        }
      }
    }
  }

  /** Reads back `nl2br`'s output: each `<br>` followed by a newline becomes the bare newline. */
  function Unescape(h: string): (s: string)
    decreases |h|
  {
    if h == [] then []
    else if |h| >= 5 && h[..5] == Br + "\n" then "\n" + Unescape(h[5..])
    else [h[0]] + Unescape(h[1..])
  }

  /** `nl2br` loses nothing: `Unescape` recovers the original text from its output. */
  lemma {:induction false} UnescapeNl2Br(s: string)
    ensures Unescape(Nl2Br(Some(s))) == s
    decreases |s|
  {
    if s != [] {
      UnescapeNl2Br(s[1..]);
      var t := ReplaceChar(s[1..], '\n', Br + "\n");
      assert Nl2Br(Some(s[1..])) == t;
      if s[0] == '\n' {
        var h := Br + "\n" + t;
        assert h[..5] == Br + "\n";
        assert h[5..] == t;
      } else {
        var h := [s[0]] + t;
        NewlinesFollowBr(s[1..]);
        assert |h| >= 5 ==> h[4] == t[3] && t[3] != '\n';
        assert |h| >= 5 ==> h[..5][4] != (Br + "\n")[4];
        assert h[1..] == t;
        assert s == [s[0]] + s[1..];
      }
    }
  }

  /** The output grows by four characters per newline and leaves newline-free text unchanged. */
  lemma Nl2BrLength(s: string)
    ensures |Nl2Br(Some(s))| == |s| + 4 * CountChar(s, '\n')
    ensures CountChar(s, '\n') == 0 ==> Nl2Br(Some(s)) == s
  {
    ReplaceCharLength(s, '\n', Br + "\n");
    if CountChar(s, '\n') == 0 {
      NoNewlineCounted(s);
      ReplaceAbsentChar(s, '\n', Br + "\n");
    }
  }

  lemma {:induction false} NoNewlineCounted(s: string)
    requires CountChar(s, '\n') == 0
    ensures forall i :: 0 <= i < |s| ==> s[i] != '\n'
    decreases |s|
  {
    if s != [] {
      NoNewlineCounted(s[1..]);
      forall i | 0 <= i < |s| ensures s[i] != '\n' {
        if i > 0 { assert s[i] == s[1..][i - 1]; }
      }
    }
  }

  // ---------------------------------------------------------------------------
  // The `product_image` filter

  /** `url_for('uploaded_file', filename='products/')`. */
  const UploadsPrefix: string := "/uploads/products/"
  const PicsumPrefix: string := "https://picsum.photos/seed/"
  /** The `/{width}/{height}` tail for the fixed 400 by 400 placeholder. */
  const PicsumSize: string := "/400/400"

  function Placeholder(id: Id): string {
    PicsumPrefix + IntToDecimal(id) + PicsumSize
  }

  /**
   * `product_image(product)`: the uploaded image when the product has one (a
   * non-empty file name), otherwise a placeholder seeded by the product's id.
   */
  function ProductImage(id: Id, p: Product): (url: string)
    ensures p.image.Some? && p.image.value != "" ==>
      StartsWith(url, UploadsPrefix) && url[|UploadsPrefix|..] == p.image.value
    ensures !(p.image.Some? && p.image.value != "") ==> url == Placeholder(id)
  {
    if p.image.Some? && p.image.value != "" then UploadsPrefix + p.image.value else Placeholder(id)
  }

  /** Distinct products without an image get distinct placeholders; one product always gets the same one. */
  lemma PlaceholderInjective(a: Id, b: Id)
    requires Placeholder(a) == Placeholder(b)
    ensures a == b
  {
    var u, v := Placeholder(a), Placeholder(b);
    var n := |PicsumPrefix|;
    assert IntToDecimal(a) == u[n..|u| - |PicsumSize|];
    assert IntToDecimal(b) == v[n..|v| - |PicsumSize|];
    IntToDecimalInjective(a, b);
  }

  /** An uploaded image's address never looks like a placeholder. */
  lemma UploadNeverPlaceholder(id: Id, p: Product, other: Id)
    requires p.image.Some? && p.image.value != ""
    ensures ProductImage(id, p) != Placeholder(other)
  {
    var u := ProductImage(id, p);
    assert u[0] == '/';
    assert Placeholder(other)[0] == 'h';
  }

  // ---------------------------------------------------------------------------
  // Audit registration

  /** `register_audit_listeners([User, Order, Product])`. */
  const AuditedModels: seq<ModelKind> := [UserModel, OrderModel, ProductModel]

  /**
   * The factory's registration on a registry holding no listeners yet: all
   * three events of users, orders and products are audited, and nothing else.
   */
  method RegisterListeners(reg: Audit.Registry)
    requires reg.listeners == {}
    modifies reg
    ensures forall m, a :: reg.Listens(m, a) <==> m == UserModel || m == OrderModel || m == ProductModel
  {
    reg.RegisterAuditListeners(AuditedModels);
  }
}
