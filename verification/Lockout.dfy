/** Login attempts of one account and its temporary lock. */
module Lockout {
  import opened Common

  datatype User = User(failedAttempts: int, lockedUntil: Option<int>, isActive: bool, isVerified: bool)

  datatype Policy = Policy(maxAttempts: int, lockSeconds: nat)

  datatype Outcome = LockedOut | WrongPassword | Inactive | Unverified | LoggedIn

  /** The login endpoint. A refusal after a correct password is raised before any commit, so it changes nothing. */
  function Login(c: Policy, u: User, now: int, passwordOk: bool): (User, Outcome) {
    if u.lockedUntil.Some? && u.lockedUntil.value > now then (u, LockedOut) else
    var attempts := if u.lockedUntil.Some? then 0 else u.failedAttempts;
    if !passwordOk then
      (u.(failedAttempts := attempts + 1,
          lockedUntil := if attempts + 1 >= c.maxAttempts then Some(now + c.lockSeconds) else None), WrongPassword)
    else if !u.isActive then (u, Inactive)
    else if !u.isVerified then (u, Unverified)
    else (u.(failedAttempts := 0, lockedUntil := None), LoggedIn)
  }

  class Account {
    var failedAttempts: int
    var lockedUntil: Option<int>
    const isActive: bool
    const isVerified: bool

    constructor (isActive: bool, isVerified: bool)
      ensures Row() == User(0, None, isActive, isVerified)
    {
      failedAttempts, lockedUntil := 0, None;
      this.isActive, this.isVerified := isActive, isVerified;
    }

    function Row(): User
      reads this
    {
      User(failedAttempts, lockedUntil, isActive, isVerified)
    }

    method LogIn(c: Policy, now: int, passwordOk: bool) returns (outcome: Outcome)
      modifies this
      ensures (Row(), outcome) == Login(c, old(Row()), now, passwordOk)
    {
      var attempts, until := failedAttempts, lockedUntil;
      if lockedUntil.Some? {
        if lockedUntil.value > now {
          return LockedOut;
        }
        lockedUntil := None;
        failedAttempts := 0;
      }
      if !passwordOk {
        failedAttempts := failedAttempts + 1;
        if failedAttempts >= c.maxAttempts {
          lockedUntil := Some(now + c.lockSeconds);
        }
        return WrongPassword;
      }
      if !isActive {
        failedAttempts, lockedUntil := attempts, until;
        return Inactive;
      }
      if !isVerified {
        failedAttempts, lockedUntil := attempts, until;
        return Unverified;
      }
      failedAttempts := 0;
      lockedUntil := None;
      return LoggedIn;
    }

    /** What a password reset or change does to the counters. */
    method PasswordChanged()
      modifies this
      ensures Row() == old(Row()).(failedAttempts := 0, lockedUntil := None)
    {
      failedAttempts := 0;
      lockedUntil := None;
    }
  }

  // ---------------------------------------------------------------- runs

  datatype Event = LoginAt(now: int, passwordOk: bool) | PasswordReset(now: int)

  function Step(c: Policy, u: User, e: Event): User {
    match e
    case LoginAt(now, ok) => Login(c, u, now, ok).0
    case PasswordReset(_) => u.(failedAttempts := 0, lockedUntil := None)
  }

  function Run(c: Policy, u: User, events: seq<Event>): User {
    if events == [] then u else Step(c, Run(c, u, events[..|events| - 1]), events[|events| - 1])
  }

  /** When wrong passwords were evaluated since the last success or password change. */
  function Wrong(c: Policy, u: User, events: seq<Event>): seq<int> {
    if events == [] then [] else
    var before := Wrong(c, u, events[..|events| - 1]);
    match events[|events| - 1]
    case PasswordReset(_) => []
    case LoginAt(now, ok) =>
      var outcome := Login(c, Run(c, u, events[..|events| - 1]), now, ok).1;
      if outcome == WrongPassword then before + [now]
      else if outcome == LoggedIn then []
      else before
  }

  ghost predicate Ordered(events: seq<Event>) {
    forall j, k :: 0 <= j < k < |events| ==> events[j].now <= events[k].now
  }

  function Limit(c: Policy): nat {
    if c.maxAttempts <= 1 then 1 else c.maxAttempts
  }

  /**
   Where a run stands at time `now`: the unlocked account has had fewer than the limit of wrong
   passwords since its last lock, and that lock is over.
   */
  ghost predicate Stands(c: Policy, u: User, wrong: seq<int>, now: int) {
    && (forall k :: 0 <= k < |wrong| ==> wrong[k] <= now)
    && (forall j, k :: 0 <= j < k < |wrong| ==> wrong[j] <= wrong[k])
    && (u.lockedUntil.None? ==>
          && 0 <= u.failedAttempts < Limit(c) && u.failedAttempts <= |wrong|
          && (u.failedAttempts < |wrong| ==> wrong[|wrong| - u.failedAttempts - 1] + c.lockSeconds <= now))
    && (u.lockedUntil.Some? ==> wrong != [] && u.lockedUntil.value == wrong[|wrong| - 1] + c.lockSeconds)
    && (forall j :: 0 <= j && j + Limit(c) < |wrong| ==> wrong[j] + c.lockSeconds <= wrong[j + Limit(c)])
  }

  lemma WrongStep(c: Policy, u: User, wrong: seq<int>, before: int, now: int)
    requires Stands(c, u, wrong, before) && before <= now && Login(c, u, now, false).1 == WrongPassword
    ensures Stands(c, Login(c, u, now, false).0, wrong + [now], now)
  {
    if Limit(c) <= |wrong| {
      WrongSpan(c, u, wrong, before, now);
    }
    SpansWith(wrong, now, Limit(c), c.lockSeconds);
    var u' := Login(c, u, now, false).0;
    assert u'.lockedUntil.None? ==>
        u'.failedAttempts == if u.lockedUntil.Some? then 1 else u.failedAttempts + 1;
    hide Login;
  }

  /** One more time at the end of a list that keeps its distances. */
  lemma SpansWith(wrong: seq<int>, now: int, m: nat, span: int)
    requires forall j :: 0 <= j && j + m < |wrong| ==> wrong[j] + span <= wrong[j + m]
    requires 0 < m && (m <= |wrong| ==> wrong[|wrong| - m] + span <= now)
    ensures var longer := wrong + [now];
            forall j :: 0 <= j && j + m < |longer| ==> longer[j] + span <= longer[j + m]
  {
    var longer := wrong + [now];
    forall j | 0 <= j && j + m < |longer| ensures longer[j] + span <= longer[j + m] {
      assert j + m < |wrong| ==> wrong[j] + span <= wrong[j + m];
    }
  }

  /** A wrong password comes at least the lock duration after the one that lies the limit before it. */
  lemma WrongSpan(c: Policy, u: User, wrong: seq<int>, before: int, now: int)
    requires Stands(c, u, wrong, before) && before <= now && Login(c, u, now, false).1 == WrongPassword
    requires Limit(c) <= |wrong|
    ensures wrong[|wrong| - Limit(c)] + c.lockSeconds <= now
  {
    var j := |wrong| - Limit(c);
    if u.lockedUntil.Some? {
      assert wrong[j] <= wrong[|wrong| - 1];
    } else {
      var last := |wrong| - u.failedAttempts - 1;
      assert wrong[j] <= wrong[last];
    }
  }

  lemma StandsLater(c: Policy, u: User, wrong: seq<int>, before: int, now: int)
    requires Stands(c, u, wrong, before) && before <= now
    ensures Stands(c, u, wrong, now)
  {
  }

  lemma StandsAfresh(c: Policy, u: User, now: int)
    requires u.failedAttempts == 0 && u.lockedUntil == None
    ensures Stands(c, u, [], now)
  {
  }

  lemma {:induction false} RunStands(c: Policy, u: User, events: seq<Event>, now: int)
    requires u.failedAttempts == 0 && u.lockedUntil == None
    requires Ordered(events) && (events != [] ==> events[|events| - 1].now <= now)
    ensures Stands(c, Run(c, u, events), Wrong(c, u, events), now)
  {
    if events == [] {
      StandsAfresh(c, u, now);
    } else {
      hide Stands, Login;
      var earlier, e := events[..|events| - 1], events[|events| - 1];
      var u1, wrong := Run(c, u, earlier), Wrong(c, u, earlier);
      RunStands(c, u, earlier, e.now);
      StandsLater(c, u1, wrong, e.now, now);
      if e.LoginAt? {
        LoginOutcomes(c, u1, e.now, e.passwordOk);
      }
      if e.PasswordReset? {
        StandsAfresh(c, Run(c, u, events), now);
      } else if Login(c, u1, e.now, e.passwordOk).1 == WrongPassword {
        WrongStep(c, u1, wrong, e.now, e.now);
        StandsLater(c, Run(c, u, events), wrong + [e.now], e.now, now);
      } else if Login(c, u1, e.now, e.passwordOk).1 == LoggedIn {
        StandsAfresh(c, Run(c, u, events), now);
      }
    }
  }

  /** What each answer of the login means for the row. */
  lemma LoginOutcomes(c: Policy, u: User, now: int, ok: bool)
    ensures var (u', outcome) := Login(c, u, now, ok);
            && (outcome == WrongPassword ==> !ok)
            && (outcome == LoggedIn ==> u'.failedAttempts == 0 && u'.lockedUntil == None)
            && (outcome != WrongPassword && outcome != LoggedIn ==> u' == u)
  {
  }

  /** Any max_failed_login_attempts + 1 consecutive wrong passwords span at least the lock duration, so
      a half-open window of that length holds at most max_failed_login_attempts of them. */
  lemma LockoutBound(c: Policy, u: User, events: seq<Event>, j: nat, k: nat, s: int)
    requires u.failedAttempts == 0 && u.lockedUntil == None && Ordered(events)
    requires j <= k < |Wrong(c, u, events)|
    ensures var wrong := Wrong(c, u, events);
            && (k - j >= Limit(c) ==> c.lockSeconds <= wrong[k] - wrong[j])
            && (s <= wrong[j] && wrong[k] < s + c.lockSeconds ==> k - j + 1 <= Limit(c))
  {
    var now := if events == [] then 0 else events[|events| - 1].now;
    RunStands(c, u, events, now);
    var wrong := Wrong(c, u, events);
    if k - j >= Limit(c) {
      assert wrong[j] + c.lockSeconds <= wrong[j + Limit(c)];
      assert j + Limit(c) == k || wrong[j + Limit(c)] <= wrong[k];
    }
  }

  // ---------------------------------------------------------------- what a lock does

  /** n modulo m, by repeated subtraction. */
  function Rest(n: nat, m: nat): nat
    requires 0 < m
  {
    if n < m then n else Rest(n - m, m)
  }

  /** The lock set by the last of these wrong passwords, if it set one, still stands: every limit-th one sets one. */
  predicate Locked(c: Policy, wrong: seq<int>, now: int) {
    wrong != [] && Rest(|wrong|, Limit(c)) == 0 && now < wrong[|wrong| - 1] + c.lockSeconds
  }

  /** The reference, told from the times alone: which wrong passwords counted since the last success or password change. */
  function Counted(c: Policy, mayLogIn: bool, events: seq<Event>): seq<int> {
    if events == [] then [] else
    var before := Counted(c, mayLogIn, events[..|events| - 1]);
    match events[|events| - 1]
    case PasswordReset(_) => []
    case LoginAt(now, ok) =>
      if Locked(c, before, now) then before
      else if !ok then before + [now]
      else if mayLogIn then []
      else before
  }

  predicate Fresh(u: User) {
    u.failedAttempts == 0 && u.lockedUntil == None
  }

  /** The row's two fields in terms of the wrong passwords that counted. */
  predicate Mirrors(c: Policy, u: User, wrong: seq<int>) {
    match u.lockedUntil
    case None => u.failedAttempts == Rest(|wrong|, Limit(c)) && (wrong != [] ==> u.failedAttempts != 0)
    case Some(until) => wrong != [] && Rest(|wrong|, Limit(c)) == 0 && until == wrong[|wrong| - 1] + c.lockSeconds
  }

  lemma {:induction false} NextOfCycle(n: nat, m: nat)
    requires 0 < m
    ensures Rest(n, m) < m
    ensures Rest(n + 1, m) == if Rest(n, m) + 1 == m then 0 else Rest(n, m) + 1
  {
    if n >= m {
      NextOfCycle(n - m, m);
    }
  }

  /** One login against a row that mirrors the past: its answer, and the row after it. */
  lemma LoginMirrors(c: Policy, u: User, wrong: seq<int>, now: int, ok: bool)
    requires Mirrors(c, u, wrong)
    ensures var (u', outcome) := Login(c, u, now, ok);
            && (outcome == LockedOut <==> Locked(c, wrong, now))
            && (outcome == WrongPassword <==> !Locked(c, wrong, now) && !ok)
            && (outcome == LoggedIn <==> !Locked(c, wrong, now) && ok && u.isActive && u.isVerified)
            && (outcome != WrongPassword && outcome != LoggedIn ==> u' == u)
            && (outcome == WrongPassword ==> Mirrors(c, u', wrong + [now]))
            && (outcome == LoggedIn ==> Fresh(u'))
            && u'.isActive == u.isActive && u'.isVerified == u.isVerified
  {
    NextOfCycle(|wrong|, Limit(c));
  }

  lemma {:induction false} RunMirrors(c: Policy, u: User, events: seq<Event>)
    requires Fresh(u)
    ensures var u', wrong := Run(c, u, events), Counted(c, u.isActive && u.isVerified, events);
            && Mirrors(c, u', wrong) && Wrong(c, u, events) == wrong
            && u'.isActive == u.isActive && u'.isVerified == u.isVerified
  {
    hide Mirrors, Locked, Login;
    if events == [] {
      FreshMirrors(c, u);
    } else {
      var earlier, e := events[..|events| - 1], events[|events| - 1];
      RunMirrors(c, u, earlier);
      var u1, wrong := Run(c, u, earlier), Counted(c, u.isActive && u.isVerified, earlier);
      if e.LoginAt? {
        LoginMirrors(c, u1, wrong, e.now, e.passwordOk);
      }
      if Counted(c, u.isActive && u.isVerified, events) == [] && Fresh(Run(c, u, events)) {
        FreshMirrors(c, Run(c, u, events));
      }
    }
  }

  lemma FreshMirrors(c: Policy, u: User)
    requires Fresh(u)
    ensures Mirrors(c, u, [])
  {
  }

  /**
   What the next login is told, after any run: LockedOut exactly while the lock of the last counted wrong password
   stands, whatever the password; otherwise WrongPassword exactly for a wrong one, and LoggedIn exactly for the
   right one of an active and verified account. Neither a refusal by the lock nor one of such an account
   changes the row.
   */
  lemma LoginIsAnswered(c: Policy, u: User, events: seq<Event>, now: int, ok: bool)
    requires Fresh(u)
    ensures var before := Run(c, u, events);
            var (after, outcome) := Login(c, before, now, ok);
            var locked := Locked(c, Counted(c, u.isActive && u.isVerified, events), now);
            && (outcome == LockedOut <==> locked)
            && (outcome == WrongPassword <==> !locked && !ok)
            && (outcome == LoggedIn <==> !locked && ok && u.isActive && u.isVerified)
            && (outcome != WrongPassword && outcome != LoggedIn ==> after == before)
            && (outcome == LoggedIn ==> Fresh(after))
  {
    RunMirrors(c, u, events);
    LoginMirrors(c, Run(c, u, events), Counted(c, u.isActive && u.isVerified, events), now, ok);
    hide Login, Run, Counted;
  }

  /** The logins of a stretch of the run that lies within the lock's duration. */
  ghost predicate Within(events: seq<Event>, until: int) {
    forall k :: 0 <= k < |events| ==> events[k].LoginAt? && events[k].now < until
  }

  /** A lock holds for its whole duration: until then no login counts, whatever its password, and the row stays as it is. */
  lemma {:induction false} LockHolds(c: Policy, u: User, before: seq<Event>, logins: seq<Event>, now: int, ok: bool)
    requires Fresh(u)
    requires var wrong := Counted(c, u.isActive && u.isVerified, before);
             && wrong != [] && Rest(|wrong|, Limit(c)) == 0
             && Within(logins, wrong[|wrong| - 1] + c.lockSeconds) && now < wrong[|wrong| - 1] + c.lockSeconds
    ensures Run(c, u, before + logins) == Run(c, u, before)
    ensures Counted(c, u.isActive && u.isVerified, before + logins) == Counted(c, u.isActive && u.isVerified, before)
    ensures Login(c, Run(c, u, before + logins), now, ok) == (Run(c, u, before), LockedOut)
  {
    hide Login, Mirrors;
    if logins == [] {
      assert before + logins == before;
    } else {
      var n := |logins| - 1;
      assert (before + logins)[..|before + logins| - 1] == before + logins[..n];
      LockHolds(c, u, before, logins[..n], logins[n].now, logins[n].passwordOk);
    }
    LoginIsAnswered(c, u, before + logins, now, ok);
  }
}
