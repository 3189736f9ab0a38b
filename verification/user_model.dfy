/** The user document (backend/models/User.js): a role, notification and
    display preferences, and the login-lockout state made of an attempt counter
    and an optional lock expiry. */
module UserModel {
  import opened Common

  datatype Role = UserRole | AdminRole | DeveloperRole

  datatype Theme = Light | Dark | Auto

  datatype Notifications = Notifications(email: bool, push: bool, sms: bool)

  datatype Preferences = Preferences(notifications: Notifications, theme: Theme, language: string)

  /** The ownership check of every per-deployment route: the owner or an admin. */
  predicate CanAccess(owner: UserId, requester: UserId, role: Role) {
    owner == requester || role == AdminRole
  }

  /** The schema defaults of the `preferences` sub-document. */
  const DefaultPreferences := Preferences(Notifications(true, true, false), Auto, "en")

  /** The failure that locks the account is the one that brings the counter to 5. */
  const MaxLoginAttempts: nat := 5

  /** A lock lasts two hours. */
  const LockMillis: nat := 2 * 60 * 60 * 1000

  /** The lockout fields: `loginAttempts` and `lockUntil` (absent when unset). */
  datatype LoginState = LoginState(attempts: int, lockUntil: Option<Millis>)

  /** A new user: no failures, no lock. */
  const NoFailures := LoginState(0, None)

  /** The login route rejects the user while the lock lies strictly in the future. */
  predicate IsLocked(s: LoginState, now: Millis) {
    s.lockUntil.Some? && s.lockUntil.value > now
  }

  /** `incLoginAttempts` judges a lock expired only when it lies strictly in the past. */
  predicate LockExpired(s: LoginState, now: Millis) {
    s.lockUntil.Some? && s.lockUntil.value < now
  }

  /** The stored state after `incLoginAttempts` at time `now`. */
  function AfterFailure(s: LoginState, now: Millis): (r: LoginState)
    // an expired lock is dropped and the counter restarts at one
    ensures LockExpired(s, now) ==> r == LoginState(1, None)
    // otherwise the counter goes up by exactly one
    ensures !LockExpired(s, now) ==> r.attempts == s.attempts + 1
    // a lock still in force (or ending exactly now) is neither extended nor lifted
    ensures !LockExpired(s, now) && s.lockUntil.Some? ==> r.lockUntil == s.lockUntil
    // with no lock, the failure that reaches the limit sets one for two hours
    ensures s.lockUntil.None? ==>
      r.lockUntil == if s.attempts + 1 >= MaxLoginAttempts then Some(now + LockMillis) else None
  {
    if LockExpired(s, now) then LoginState(1, None)
    else if s.attempts + 1 >= MaxLoginAttempts && s.lockUntil.None? then
      LoginState(s.attempts + 1, Some(now + LockMillis))
    else LoginState(s.attempts + 1, s.lockUntil)
  }

  /** Every lock was set by the failure that reached the limit, so a locked
      state always carries at least five counted failures. */
  predicate LockConsistent(s: LoginState) {
    s.attempts >= 0 && (s.lockUntil.Some? ==> s.attempts >= MaxLoginAttempts)
  }

  /** `incLoginAttempts` keeps a consistent state consistent. */
  lemma AfterFailureKeepsConsistent(s: LoginState, now: Millis)
    requires LockConsistent(s)
    ensures LockConsistent(AfterFailure(s, now))
  {
  }

  /** Successive failures at the given times, oldest first. */
  function Failures(s: LoginState, times: seq<Millis>): LoginState
    decreases |times|
  {
    if times == [] then s else Failures(AfterFailure(s, times[0]), times[1..])
  }

  /** From a fresh account, fewer than five failures never lock it, whatever their times. */
  lemma {:induction false} FewFailuresNoLock(times: seq<Millis>)
    requires |times| < MaxLoginAttempts
    ensures Failures(NoFailures, times) == LoginState(|times|, None)
  {
    FailuresCount(0, times);
  }

  /** From an unlocked state with `n` failures, `k` more failures that stay
      below the limit just count. */
  lemma {:induction false} FailuresCount(n: nat, times: seq<Millis>)
    requires n + |times| < MaxLoginAttempts
    ensures Failures(LoginState(n, None), times) == LoginState(n + |times|, None)
    decreases |times|
  {
    if times != [] {
      assert AfterFailure(LoginState(n, None), times[0]) == LoginState(n + 1, None);
      FailuresCount(n + 1, times[1..]);
    }
  }

  /** From a fresh account, the fifth failure is the first to lock it, for two
      hours from the moment of that fifth failure. */
  lemma FifthFailureLocks(times: seq<Millis>)
    requires |times| == MaxLoginAttempts
    ensures Failures(NoFailures, times[..4]) == LoginState(4, None)
    ensures Failures(NoFailures, times) == LoginState(5, Some(times[4] + LockMillis))
  {
    FewFailuresNoLock(times[..4]);
    FailuresSnoc(NoFailures, times[..4], times[4]);
    assert times[..4] + [times[4]] == times;
  }

  /** One more failure after a run of failures. */
  lemma {:induction false} FailuresSnoc(s: LoginState, times: seq<Millis>, t: Millis)
    ensures Failures(s, times + [t]) == AfterFailure(Failures(s, times), t)
    decreases |times|
  {
    if times == [] {
      assert [t][1..] == [];
    } else {
      assert (times + [t])[1..] == times[1..] + [t];
      FailuresSnoc(AfterFailure(s, times[0]), times[1..], t);
    }
  }

  /** The boundary instant: when `lockUntil` equals `now`, the lock is neither
      in force for the login route nor expired for `incLoginAttempts`, so a
      failure then increments the counter and keeps the same lock. */
  lemma LockBoundary(s: LoginState, now: Millis)
    requires s.lockUntil == Some(now)
    ensures !IsLocked(s, now) && !LockExpired(s, now)
    ensures AfterFailure(s, now) == LoginState(s.attempts + 1, Some(now))
  {
  }

  /** A stored user. */
  class User {
    const id: UserId
    const email: string
    var role: Role
    var loginAttempts: int
    var lockUntil: Option<Millis>
    var lastLogin: Option<Millis>
    var preferences: Option<Preferences>

    /** `User.create` with the schema defaults. */
    constructor (id: UserId, email: string, role: Role)
      ensures this.id == id && this.email == email && this.role == role
      ensures loginAttempts == 0 && lockUntil == None && lastLogin == None
      ensures preferences == Some(DefaultPreferences)
    {
      this.id := id;
      this.email := email;
      this.role := role;
      loginAttempts := 0;
      lockUntil := None;
      lastLogin := None;
      preferences := Some(DefaultPreferences);
    }

    /** The lockout fields as one value. */
    function Login(): LoginState
      reads this
    {
      LoginState(loginAttempts, lockUntil)
    }

    /** `incLoginAttempts`: `$unset` the lock and `$set` the counter to 1 when
        the lock has expired; otherwise `$inc` the counter and, when this
        failure reaches the limit and no lock is set, `$set` the lock. */
    method IncLoginAttempts(now: Millis)
      modifies this`loginAttempts, this`lockUntil
      ensures Login() == AfterFailure(old(Login()), now)
    {
      if lockUntil.Some? && lockUntil.value < now {
        lockUntil := None;
        loginAttempts := 1;
        return;
      }
      var lockNow := loginAttempts + 1 >= MaxLoginAttempts && lockUntil.None?;
      loginAttempts := loginAttempts + 1;
      if lockNow {
        lockUntil := Some(now + LockMillis);
      }
    }

    /** `$unset` of `loginAttempts` and `lockUntil`: the counter reads as its
        default 0 afterwards. */
    method ResetLoginAttempts()
      modifies this`loginAttempts, this`lockUntil
      ensures Login() == NoFailures
    {
      loginAttempts := 0;
      lockUntil := None;
    }
  }
}
