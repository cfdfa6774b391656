/** The login lockout (authservice.ts, login, and getLockTime in emit.audit.helper.ts), attempts one
    after the other. */
module Lockout {
  import opened Collections

  const MINUTE := 60_000

  function GetLockTime(failedAttempts: nat): nat {
    if failedAttempts < 5 then 0
    else if failedAttempts == 5 then MINUTE
    else if failedAttempts <= 7 then 5 * MINUTE
    else if failedAttempts <= 9 then 15 * MINUTE
    else 60 * MINUTE
  }

  /** One login: whether the password is right, when the lock was looked at, and when the failure was
      recorded. */
  datatype Attempt = Attempt(valid: bool, seenAt: int, failedAt: int)

  predicate Timed(a: Attempt) { a.seenAt <= a.failedAt }

  datatype Security = Security(failedLoginAttempts: nat, lockedUntil: Option<int>)

  const UNLOCKED := Security(0, None)

  /** The histories since the last success: when passwords were found wrong, and how often the lock was
      announced. */
  datatype State = State(security: Security, fails: seq<int>, announced: nat)

  predicate Blocked(s: Security, now: int) { s.lockedUntil.Some? && s.lockedUntil.value > now }

  function AfterFailure(s: Security, now: int): Security {
    var n := s.failedLoginAttempts + 1;
    Security(n, if GetLockTime(n) != 0 then Some(now + GetLockTime(n)) else None)
  }

  predicate Announces(s: Security, now: int) { AfterFailure(s, now).lockedUntil.Some? && s.lockedUntil.None? }

  function Step(s: State, a: Attempt): State {
    if Blocked(s.security, a.seenAt) then s
    else if a.valid then State(UNLOCKED, [], 0)
    else State(AfterFailure(s.security, a.failedAt), s.fails + [a.failedAt],
               s.announced + if Announces(s.security, a.failedAt) then 1 else 0)
  }

  function Run(acts: seq<Attempt>): State {
    if acts == [] then State(UNLOCKED, [], 0) else Step(Run(acts[..|acts| - 1]), acts[|acts| - 1])
  }

  /** The lock times from the m-th failure up to the one before the n-th. */
  function LockSum(m: nat, n: nat): nat {
    if n <= m then 0 else LockSum(m, n - 1) + GetLockTime(n - 1)
  }

  /** The minutes of lock after the fifth failure and the following ones. */
  function LockMinutes(n: nat): nat
    requires n >= 5
  {
    if n < 10 then [1, 5, 5, 15, 15][n - 5] else 60
  }

  /** The schedule's sum from the fifth failure to the one before the n-th, in minutes. */
  function SumOfMinutes(n: nat): nat
    requires n >= 5
  {
    if n < 10 then [0, 1, 6, 11, 26][n - 5] else 41 + 60 * (n - 10)
  }

  lemma {:induction false} LockSumFromFive(n: nat)
    requires n >= 5
    ensures GetLockTime(n) == LockMinutes(n) * 60_000
    ensures LockSum(5, n) == SumOfMinutes(n) * 60_000
  {
    if n > 5 {
      LockSumFromFive(n - 1);
      assert SumOfMinutes(n) == SumOfMinutes(n - 1) + LockMinutes(n - 1);
    }
  }

  /** The m-th and the n-th failure of a streak are the lock times between them apart. */
  predicate Apart(fails: seq<int>, m: nat, n: nat)
    requires 1 <= m <= n <= |fails|
  {
    fails[n - 1] - fails[m - 1] >= LockSum(m, n)
  }

  predicate Inv(s: State) {
    && s.security.failedLoginAttempts == |s.fails|
    && (if |s.fails| < 5 then s.security.lockedUntil == None && s.announced == 0
        else s.security.lockedUntil == Some(s.fails[|s.fails| - 1] + GetLockTime(|s.fails|)) && s.announced == 1)
    && forall m, n :: 5 <= m <= n <= |s.fails| ==> Apart(s.fails, m, n)
  }

  lemma StepKeepsInv(s: State, a: Attempt)
    requires Inv(s) && Timed(a)
    ensures Inv(Step(s, a))
  {
    var t := Step(s, a);
    forall m, n | 5 <= m <= n <= |t.fails| ensures Apart(t.fails, m, n) {
      if n <= |s.fails| {
        assert t.fails[m - 1] == s.fails[m - 1] && t.fails[n - 1] == s.fails[n - 1];
        assert Apart(s.fails, m, n);
      } else if m < n {
        assert Apart(s.fails, m, n - 1);
      }
    }
  }

  lemma {:induction false} RunInv(acts: seq<Attempt>)
    requires forall a <- acts :: Timed(a)
    ensures Inv(Run(acts))
    decreases |acts|
  {
    if acts != [] {
      RunInv(acts[..|acts| - 1]);
      StepKeepsInv(Run(acts[..|acts| - 1]), acts[|acts| - 1]);
    }
  }

  /** The lockout bound: since the last success, the n-th wrong password is found at least the lock
      times in between after the m-th (m >= 5), however the attempts are timed; from the fifth to the
      n-th that is 0, 1, 6, 11, 26 and then 41 + 60(n - 10) minutes. The lock is announced once. */
  lemma LockoutBound(acts: seq<Attempt>, m: nat, n: nat)
    requires forall a <- acts :: Timed(a)
    requires 5 <= m <= n <= |Run(acts).fails|
    ensures var f := Run(acts).fails;
            && f[n - 1] - f[m - 1] >= LockSum(m, n)
            && f[n - 1] - f[4] >= SumOfMinutes(n) * 60_000
    ensures Run(acts).announced == 1
  {
    RunInv(acts);
    assert Apart(Run(acts).fails, m, n);
    assert Apart(Run(acts).fails, 5, n);
    LockSumFromFive(n);
  }

  /** Five wrong passwords or more, and the minutes of the last one are not over. */
  predicate TurnedAway(fails: seq<int>, t: int) {
    |fails| >= 5 && t < fails[|fails| - 1] + LockMinutes(|fails|) * 60_000
  }

  /** The wrong passwords since the last success, read off the attempts; one that is turned away is neither. */
  function Streak(acts: seq<Attempt>): seq<int> {
    if acts == [] then []
    else
      var before, a := Streak(acts[..|acts| - 1]), acts[|acts| - 1];
      if TurnedAway(before, a.seenAt) then before else if a.valid then [] else before + [a.failedAt]
  }

  lemma BlockedIff(s: State, t: int)
    requires Inv(s)
    ensures Blocked(s.security, t) <==> TurnedAway(s.fails, t)
  {
    if |s.fails| >= 5 { LockSumFromFive(|s.fails|); }
  }

  /** After any attempts a login is turned away exactly if there have been five wrong passwords since the last
      success and the minutes of the last one are not over. */
  lemma {:induction false} LockedOutIff(acts: seq<Attempt>, t: int)
    requires forall a <- acts :: Timed(a)
    ensures Run(acts).fails == Streak(acts)
    ensures Blocked(Run(acts).security, t) <==> TurnedAway(Streak(acts), t)
    decreases |acts|
  {
    RunInv(acts);
    if acts != [] { LockedOutIff(acts[..|acts| - 1], acts[|acts| - 1].seenAt); }
    BlockedIff(Run(acts), t);
  }

  /** Someone who tries again the moment the lock ends. */
  function Patient(n: nat): seq<Attempt> {
    if n == 0 then [] else Patient(n - 1) + [Attempt(false, LockSum(5, n), LockSum(5, n))]
  }

  lemma PatientAttempt(s: State, n: nat)
    requires n >= 1 && Inv(s) && |s.fails| == n - 1 && (n >= 2 ==> s.fails[n - 2] == LockSum(5, n - 1))
    ensures Step(s, Attempt(false, LockSum(5, n), LockSum(5, n))).fails == s.fails + [LockSum(5, n)]
  {
    if n >= 6 { assert LockSum(5, n) == LockSum(5, n - 1) + GetLockTime(n - 1); }
  }

  lemma RunSnoc(acts: seq<Attempt>, a: Attempt)
    ensures Run(acts + [a]) == Step(Run(acts), a)
  {
    assert (acts + [a])[..|acts|] == acts;
  }

  /** The k-th failure lies exactly the lock times behind the fifth. */
  predicate OnTheBound(fails: seq<int>) { forall k :: 1 <= k <= |fails| ==> fails[k - 1] == LockSum(5, k) }

  /** No bound for the n-th failure can be higher: this run meets it for every n. */
  lemma {:induction false} BoundIsMet(n: nat)
    ensures |Patient(n)| == n && (forall a <- Patient(n) :: Timed(a))
    ensures |Run(Patient(n)).fails| == n && OnTheBound(Run(Patient(n)).fails)
  {
    if n > 0 {
      BoundIsMet(n - 1);
      var before, s := Patient(n - 1), Run(Patient(n - 1));
      RunInv(before);
      PatientAttempt(s, n);
      RunSnoc(before, Attempt(false, LockSum(5, n), LockSum(5, n)));
      OneMoreOnTheBound(s.fails, LockSum(5, n));
    }
  }

  lemma OneMoreOnTheBound(fails: seq<int>, t: int)
    requires OnTheBound(fails) && t == LockSum(5, |fails| + 1)
    ensures OnTheBound(fails + [t])
  {}

  datatype Outcome = LockedOut(diffMinutes: int) | InvalidCredentials | LoggedIn

  class Account {
    var security: Security
    ghost var fails: seq<int>
    ghost var announced: nat
    var outbox: nat

    ghost function View(): State reads this { State(security, fails, announced) }

    /** Up to the password's verdict; what a successful login then issues is RefreshService's. */
    method Login(a: Attempt) returns (r: Outcome)
      requires Inv(View()) && Timed(a)
      modifies this
      ensures Inv(View()) && View() == Step(old(View()), a)
      ensures outbox == old(outbox) + if !a.valid && !Blocked(old(security), a.seenAt) && |fails| == 5 then 1 else 0
      ensures r.LockedOut? <==> Blocked(old(security), a.seenAt)
      ensures r.LockedOut? ==>
                var left := old(security).lockedUntil.value - a.seenAt;
                (r.diffMinutes - 1) * MINUTE < left <= r.diffMinutes * MINUTE
      ensures r.LoggedIn? <==> a.valid && !Blocked(old(security), a.seenAt)
    {
      StepKeepsInv(View(), a);
      if security.lockedUntil.Some? && security.lockedUntil.value > a.seenAt {
        var diffMs := security.lockedUntil.value - a.seenAt;
        return LockedOut((diffMs + MINUTE - 1) / MINUTE);
      }
      if !a.valid {
        var failedAttempts := security.failedLoginAttempts + 1;
        var lockDurationMs := GetLockTime(failedAttempts);
        var wasLocked := security.lockedUntil.Some?;
        var lockedUntil := if lockDurationMs != 0 then Some(a.failedAt + lockDurationMs) else None;
        security := Security(security.failedLoginAttempts + 1, lockedUntil);
        fails := fails + [a.failedAt];
        if lockedUntil.Some? && !wasLocked {
          outbox, announced := outbox + 1, announced + 1;
        }
        return InvalidCredentials;
      }
      security, fails, announced := UNLOCKED, [], 0;
      return LoggedIn;
    }
  }
}
