/** The login handler (POST /api/auth/login in backend/routes/auth.js): the
    existence check, then the lock check, then the password check, with the
    lockout counter updated on the way. */
module AuthRoutes {
  import opened Common
  import opened UserModel

  const StatusOk: int := 200
  const StatusUnauthorized: int := 401
  const StatusLocked: int := 423

  /** What one login attempt by an existing user answers, the lockout state it
      leaves, and whether it stamps `lastLogin`. */
  datatype LoginDecision = LoginDecision(code: int, state: LoginState, stampsLogin: bool)

  /** The decision for an existing user whose password check gives `passwordOk`. */
  function LoginStep(s: LoginState, passwordOk: bool, now: Millis): (r: LoginDecision)
    // the lock is checked first: 423, and the counter is not touched
    ensures IsLocked(s, now) ==> r.code == StatusLocked && r.state == s && !r.stampsLogin
    // a wrong password counts one failure exactly once
    ensures !IsLocked(s, now) && !passwordOk ==>
      r.code == StatusUnauthorized && r.state == AfterFailure(s, now) && !r.stampsLogin
    // a right password clears counter and lock when the counter is positive, and stamps the login
    ensures !IsLocked(s, now) && passwordOk ==>
      r.code == StatusOk && r.stampsLogin && r.state == (if s.attempts > 0 then NoFailures else s)
    ensures r.code == StatusOk <==> !IsLocked(s, now) && passwordOk
  {
    if IsLocked(s, now) then LoginDecision(StatusLocked, s, false)
    else if !passwordOk then LoginDecision(StatusUnauthorized, AfterFailure(s, now), false)
    else if s.attempts > 0 then LoginDecision(StatusOk, NoFailures, true)
    else LoginDecision(StatusOk, s, true)
  }

  /** While the lock is in force the password is never consulted: the right
      and the wrong password get the same answer and leave the same state. */
  lemma LockBeforePassword(s: LoginState, now: Millis)
    requires IsLocked(s, now)
    ensures LoginStep(s, true, now) == LoginStep(s, false, now)
    ensures LoginStep(s, true, now).code == StatusLocked
  {
  }

  /** Logins keep the lock consistent with the counter, and on a consistent
      state a successful login leaves no failures and no lock behind. */
  lemma LoginKeepsConsistent(s: LoginState, passwordOk: bool, now: Millis)
    requires LockConsistent(s)
    ensures LockConsistent(LoginStep(s, passwordOk, now).state)
    ensures LoginStep(s, passwordOk, now).code == StatusOk ==>
      LoginStep(s, passwordOk, now).state.lockUntil.None?
  {
    AfterFailureKeepsConsistent(s, now);
  }

  /** Successive logins with a wrong password at the given times, oldest first. */
  function WrongLogins(s: LoginState, times: seq<Millis>): LoginState
    decreases |times|
  {
    if times == [] then s else WrongLogins(LoginStep(s, false, times[0]).state, times[1..])
  }

  /** Up to five wrong-password logins on an unlocked account are plain failures. */
  lemma {:induction false} WrongLoginsAreFailures(n: nat, times: seq<Millis>)
    requires n + |times| <= MaxLoginAttempts
    ensures WrongLogins(LoginState(n, None), times) == Failures(LoginState(n, None), times)
    decreases |times|
  {
    if times != [] {
      var next := AfterFailure(LoginState(n, None), times[0]);
      assert LoginStep(LoginState(n, None), false, times[0]).state == next;
      if n + 1 < MaxLoginAttempts {
        assert next == LoginState(n + 1, None);
        WrongLoginsAreFailures(n + 1, times[1..]);
      } else {
        assert times[1..] == [];
      }
    }
  }

  /** Five wrong passwords on a fresh account lock it: for the next two hours
      even the right password is answered with 423 and changes nothing. */
  lemma BruteForceLocksOut(times: seq<Millis>, later: Millis)
    requires |times| == MaxLoginAttempts
    requires times[4] <= later < times[4] + LockMillis
    ensures LoginStep(WrongLogins(NoFailures, times), true, later) ==
      LoginDecision(StatusLocked, WrongLogins(NoFailures, times), false)
  {
    WrongLoginsAreFailures(0, times);
    FifthFailureLocks(times);
  }

  /** The handler after `User.findOne({ email })` gave `user`; `passwordOk` is
      the bcrypt comparison's verdict. An unknown email is a 401 that touches
      nothing. */
  method Login(user: Option<User>, passwordOk: bool, now: Millis) returns (code: int)
    modifies if user.Some? then {user.value} else {}
    ensures user.None? ==> code == StatusUnauthorized
    ensures user.Some? ==>
      var d := LoginStep(old(user.value.Login()), passwordOk, now);
      && code == d.code
      && user.value.Login() == d.state
      && user.value.lastLogin == (if d.stampsLogin then Some(now) else old(user.value.lastLogin))
      && user.value.role == old(user.value.role)
      && user.value.preferences == old(user.value.preferences)
  {
    if user.None? {
      return StatusUnauthorized;
    }
    var u := user.value;
    if u.lockUntil.Some? && u.lockUntil.value > now {
      return StatusLocked;
    }
    if !passwordOk {
      u.IncLoginAttempts(now);
      return StatusUnauthorized;
    }
    if u.loginAttempts > 0 {
      u.ResetLoginAttempts();
    }
    u.lastLogin := Some(now);
    code := StatusOk;
  }
}
