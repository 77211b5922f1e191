/**
 * The session security monitor: the security keys a logged-in user's
 * server-side session carries (the bound user id and IP address, the login and
 * last-activity stamps, and the two pending-MFA keys), the checks run on each
 * request, and the decorator that logs out a session that fails them.
 *
 * Time is integer seconds since an arbitrary epoch. A stored stamp is the ISO
 * text `datetime.utcnow().isoformat()` wrote; reading it back either yields its
 * instant or fails (`Unparseable`, which also stands for an empty string).
 */
module SessionSecurity {
  import opened Wrappers

  type UserId = int

  /** `timedelta(minutes=30)`. */
  const InactivityTimeout: int := 30 * 60
  /** `timedelta(hours=24)`. */
  const AbsoluteTimeout: int := 24 * 60 * 60

  /** A stored timestamp as `datetime.fromisoformat` reads it. */
  datatype Stamp = At(seconds: int) | Unparseable

  /** The six security keys of the session; `None` is an absent key. */
  datatype SecurityState = SecurityState(
    userId: Option<UserId>,
    ipAddress: Option<string>,
    loginTime: Option<Stamp>,
    lastActivity: Option<Stamp>,
    mfaUserId: Option<UserId>,
    mfaSecretSetup: Option<string>)

  const Cleared: SecurityState := SecurityState(None, None, None, None, None, None)

  /** `is_session_expired()` at time `now`. */
  function IsExpired(lastActivity: Option<Stamp>, loginTime: Option<Stamp>, now: int): bool {
    match (lastActivity, loginTime)
    case (Some(At(last)), Some(At(login))) =>
      now - last > InactivityTimeout || now - login > AbsoluteTimeout
    case _ => true
  }

  /** `validate_ip_address()`: the bound address must equal the request's. */
  function IpMatches(ipAddress: Option<string>, remote: string): bool {
    ipAddress == Some(remote)
  }

  /** The verdict of `validate_session()`. */
  function Verdict(s: SecurityState, authenticated: bool, remote: string, now: int): bool {
    if !authenticated then true
    else if s.ipAddress.None? || s.lastActivity.None? then false
    else if !IpMatches(s.ipAddress, remote) then false
    else !IsExpired(s.lastActivity, s.loginTime, now)
  }

  /** The security keys right after `init_session_security(userId, ip)` at time `now`. */
  function AfterInit(s: SecurityState, userId: UserId, ip: string, now: int): (r: SecurityState) {
    s.(userId := Some(userId), ipAddress := Some(ip), loginTime := Some(At(now)), lastActivity := Some(At(now)))
  }

  /**
   * The session of one client: the security keys, the user id flask-login keeps
   * (`_user_id`, here `principal`), and `session.permanent`.
   *
   * `current_user.is_authenticated` holds when `principal` names a user that
   * `user_loader` still finds; the methods that test it take `live`, the ids of
   * the users the table holds.
   */
  class Session {
    var userId: Option<UserId>
    var ipAddress: Option<string>
    var loginTime: Option<Stamp>
    var lastActivity: Option<Stamp>
    var mfaUserId: Option<UserId>
    var mfaSecretSetup: Option<string>
    var principal: Option<UserId>
    var permanent: bool

    /** A new, empty session. */
    constructor ()
      ensures State() == Cleared && principal == None && !permanent
    {
      userId, ipAddress, loginTime, lastActivity := None, None, None, None;
      mfaUserId, mfaSecretSetup := None, None;
      principal := None;
      permanent := false;
    }

    function State(): SecurityState
      reads this
    {
      SecurityState(userId, ipAddress, loginTime, lastActivity, mfaUserId, mfaSecretSetup)
    }

    /** `current_user.is_authenticated`, given the ids `user_loader` finds. */
    predicate IsAuthenticated(live: set<UserId>)
      reads this
    {
      principal.Some? && principal.value in live
    }

    /** `init_session_security(user_id, ip_address)` at time `now`. */
    method InitSecurity(uid: UserId, ip: string, now: int)
      modifies this
      ensures State() == AfterInit(old(State()), uid, ip, now)
      ensures permanent
      ensures principal == old(principal)
    {
      userId := Some(uid);
      ipAddress := Some(ip);
      loginTime := Some(At(now));
      lastActivity := Some(At(now));
      permanent := true;
    }

    /** `validate_session()` for a request from `remote` at time `now`. */
    method Validate(live: set<UserId>, remote: string, now: int) returns (ok: bool)
      modifies this
      ensures ok == Verdict(old(State()), old(IsAuthenticated(live)), remote, now)
      ensures ok && old(IsAuthenticated(live)) ==> State() == old(State()).(lastActivity := Some(At(now)))
      ensures !(ok && old(IsAuthenticated(live))) ==> State() == old(State())
      ensures principal == old(principal) && permanent == old(permanent)
    {
      if !IsAuthenticated(live) {
        return true;
      }
      if ipAddress.None? || lastActivity.None? {
        return false;
      }
      if !IpMatches(ipAddress, remote) {
        return false;
      }
      if IsExpired(lastActivity, loginTime, now) {
        return false;
      }
      lastActivity := Some(At(now));
      return true;
    }

    /** `clear_session_security()`: pops the six keys and nothing else. */
    method ClearSecurity()
      modifies this
      ensures State() == Cleared
      ensures principal == old(principal) && permanent == old(permanent)
    {
      userId, ipAddress, loginTime, lastActivity := None, None, None, None;
      mfaUserId := None;
      mfaSecretSetup := None;
    }

    /** flask-login's `logout_user()`: the session no longer names a user. */
    method Logout()
      modifies this
      ensures principal == None
      ensures State() == old(State()) && permanent == old(permanent)
    {
      principal := None;
    }

    /**
     * What a route wrapped in `@session_security_required` does before its body:
     * `proceed` is whether the body runs; otherwise the user was logged out and
     * the security keys cleared.
     */
    method SecurityRequired(live: set<UserId>, remote: string, now: int) returns (proceed: bool)
      modifies this
      ensures proceed == Verdict(old(State()), old(IsAuthenticated(live)), remote, now)
      ensures proceed ==> principal == old(principal)
      ensures proceed && old(IsAuthenticated(live)) ==> State() == old(State()).(lastActivity := Some(At(now)))
      ensures proceed && !old(IsAuthenticated(live)) ==> State() == old(State())
      ensures !proceed ==> principal == None && State() == Cleared
    {
      proceed := true;
      if IsAuthenticated(live) {
        var ok := Validate(live, remote, now);
        if !ok {
          Logout();
          ClearSecurity();
          proceed := false;
        }
      }
    }
  }

  // ---------------------------------------------------------------------------
  // Properties

  /** Without an authenticated user every request passes, whatever the keys say. */
  lemma AnonymousAlwaysValid(s: SecurityState, remote: string, now: int)
    ensures Verdict(s, false, remote, now)
  {
  }

  /** A missing `ip_address` or `last_activity` key fails the check for an authenticated user. */
  lemma MissingKeysInvalid(s: SecurityState, remote: string, now: int)
    requires s.ipAddress.None? || s.lastActivity.None?
    ensures !Verdict(s, true, remote, now)
  {
  }

  /** A missing or unreadable login stamp counts as expired, whatever the activity stamp. */
  lemma MissingLoginTimeExpires(last: Option<Stamp>, login: Option<Stamp>, now: int)
    requires login.None? || login == Some(Unparseable)
    ensures IsExpired(last, login, now)
  {
  }

  /** A request from another address fails the check, even on a fresh session. */
  lemma IpMismatchInvalid(s: SecurityState, remote: string, now: int)
    requires s.ipAddress.Some? && s.ipAddress.value != remote
    ensures !Verdict(s, true, remote, now)
  {
  }

  /** Inactivity expiry is strict: exactly thirty idle minutes still pass, one second more does not. */
  lemma InactivityBoundary(login: int, now: int)
    requires now - login <= AbsoluteTimeout
    ensures !IsExpired(Some(At(now - InactivityTimeout)), Some(At(login)), now)
    ensures IsExpired(Some(At(now - InactivityTimeout - 1)), Some(At(login)), now)
  {
  }

  /** More than 24 hours after login a session is expired however recent its activity. */
  lemma AbsoluteTimeoutWins(last: Option<Stamp>, login: int, now: int)
    requires now - login > AbsoluteTimeout
    ensures IsExpired(last, Some(At(login)), now)
  {
  }

  /** Once expired, a session stays expired at every later time. */
  lemma ExpiryIsPermanent(last: Option<Stamp>, login: Option<Stamp>, now: int, later: int)
    requires now <= later && IsExpired(last, login, now)
    ensures IsExpired(last, login, later)
  {
  }

  /**
   * Right after `init_session_security(u, ip)` at `t` the keys hold `u`, `ip`
   * and `t` twice, and a request from `ip` at `now` passes exactly when at most
   * thirty minutes have gone by.
   */
  lemma InitThenValidate(s: SecurityState, u: UserId, ip: string, t: int, remote: string, now: int)
    ensures var r := AfterInit(s, u, ip, t);
            r.userId == Some(u) && r.ipAddress == Some(ip) && r.loginTime == Some(At(t)) && r.lastActivity == Some(At(t))
    ensures Verdict(AfterInit(s, u, ip, t), true, remote, now) <==> remote == ip && now - t <= InactivityTimeout
  {
  }

  /** A passing session must have logged in at most 24 hours ago; refreshing activity never extends that. */
  lemma ValidImpliesRecentLogin(s: SecurityState, remote: string, now: int)
    requires Verdict(s, true, remote, now)
    ensures s.loginTime.Some? && s.loginTime.value.At? && now - s.loginTime.value.seconds <= AbsoluteTimeout
    ensures var r := s.(lastActivity := Some(At(now)));
            r.loginTime == s.loginTime && !IsExpired(r.lastActivity, r.loginTime, now)
  {
  }
}
