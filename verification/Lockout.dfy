/**
 The lockout of an account after wrong passwords (src/core/AuthService.cpp): how long each
 failure locks, and how slowly an attacker who never guesses right can go on.
 */
module Lockout {

  import opened Prelude

  const LOCK_BASE_SECONDS := 60
  const LOCK_MAX_SECONDS := 900
  const ATTEMPTS_BEFORE_LOCK := 5

  /** The schedule in closed form: nothing below five, then doubling every five, up to the maximum. */
  function LockSeconds(failedAttempts: int): nat {
    if failedAttempts < ATTEMPTS_BEFORE_LOCK then 0
    else Min(LOCK_BASE_SECONDS * Pow2(failedAttempts / ATTEMPTS_BEFORE_LOCK - 1), LOCK_MAX_SECONDS)
  }

  lemma LockSecondsIsMonotone(m: int, n: int)
    requires m <= n
    ensures LockSeconds(m) <= LockSeconds(n) <= LOCK_MAX_SECONDS
    ensures LockSeconds(n) > 0 <==> n >= ATTEMPTS_BEFORE_LOCK
  {
    if n >= ATTEMPTS_BEFORE_LOCK {
      Pow2Grows(0, n / 5 - 1);
      if m >= ATTEMPTS_BEFORE_LOCK {
        Pow2Grows(m / 5 - 1, n / 5 - 1);
      }
    }
  }

  /** lockSecondsFor: the doubling loop, which also stops as soon as the maximum is reached. */
  method LockSecondsFor(failedAttempts: int) returns (seconds: nat)
    ensures seconds == LockSeconds(failedAttempts)
  {
    if failedAttempts < ATTEMPTS_BEFORE_LOCK { return 0; }
    var steps := failedAttempts / ATTEMPTS_BEFORE_LOCK - 1;
    var raw := LOCK_BASE_SECONDS;
    var i := 0;
    while i < steps && raw < LOCK_MAX_SECONDS
      invariant 0 <= i <= steps
      invariant raw == LOCK_BASE_SECONDS * Pow2(i)
    {
      raw := raw * 2;
      i := i + 1;
    }
    Pow2Grows(i, steps);
    seconds := Min(raw, LOCK_MAX_SECONDS);
  }

  // ---- One account under attack -----------------------------------------------------

  /** The two columns that matter; times are milliseconds. */
  datatype LockState = LockState(failedAttempts: nat, lockedUntil: Option<int>)

  const CLEAN := LockState(0, None)

  predicate IsLocked(s: LockState, now: int) { s.lockedUntil.Some? && s.lockedUntil.value > now }

  function AfterFailure(s: LockState, now: int): LockState {
    var attempts := s.failedAttempts + 1;
    LockState(attempts, if LockSeconds(attempts) > 0 then Some(now + 1000 * LockSeconds(attempts)) else None)
  }

  /** One login or unlock with a wrong password; the database may refuse to record it. */
  datatype Try = Try(now: int, recorded: bool)

  /** A try counts as a failure when the account was open to it and the failure was recorded. */
  predicate Fails(s: LockState, t: Try) { !IsLocked(s, t.now) && t.recorded }

  function AfterTry(s: LockState, t: Try): LockState { if Fails(s, t) then AfterFailure(s, t.now) else s }

  function StateAfter(tries: seq<Try>): LockState {
    if tries == [] then CLEAN else AfterTry(StateAfter(tries[..|tries| - 1]), tries[|tries| - 1])
  }

  /** The moments of the recorded failures. */
  function Failures(tries: seq<Try>): seq<int> {
    if tries == [] then []
    else
      var before, t := tries[..|tries| - 1], tries[|tries| - 1];
      if Fails(StateAfter(before), t) then Failures(before) + [t.now] else Failures(before)
  }

  predicate Monotone(tries: seq<Try>) { forall i, j :: 0 <= i < j < |tries| ==> tries[i].now <= tries[j].now }

  /** The waits imposed by the first n failures, in milliseconds. */
  function Waits(n: nat): nat { if n == 0 then 0 else Waits(n - 1) + 1000 * LockSeconds(n) }

  lemma {:induction false} FailuresAreSpaced(tries: seq<Try>)
    requires Monotone(tries)
    ensures var s, f := StateAfter(tries), Failures(tries);
            && s.failedAttempts == |f|
            && (f != [] ==>
                  s.lockedUntil == if LockSeconds(|f|) > 0 then Some(f[|f| - 1] + 1000 * LockSeconds(|f|)) else None)
            && (f == [] ==> s.lockedUntil == None)
            && (tries != [] ==> forall i :: 0 <= i < |f| ==> f[i] <= tries[|tries| - 1].now)
            && forall i :: 0 < i < |f| ==> f[i] >= f[i - 1] + 1000 * LockSeconds(i)
  {
    if tries == [] {
    } else {
      FailuresAreSpaced(tries[..|tries| - 1]);
    }
  }

  lemma {:induction false} SpacingAddsUp(f: seq<int>, n: nat)
    requires n < |f|
    requires forall i :: 0 < i < |f| ==> f[i] >= f[i - 1] + 1000 * LockSeconds(i)
    ensures f[n] >= f[0] + Waits(n)
  {
    if n > 0 {
      SpacingAddsUp(f, n - 1);
    }
  }

  /**
   With a clock that does not run backwards and no success or reset in between, the
   failure after n others comes no earlier than the first plus all n waits in full.
   */
  lemma AttackIsSlow(tries: seq<Try>, n: nat)
    requires Monotone(tries) && n < |Failures(tries)|
    ensures Failures(tries)[n] >= Failures(tries)[0] + Waits(n)
  {
    FailuresAreSpaced(tries);
    SpacingAddsUp(Failures(tries), n);
  }

  /** The exception: failures the database does not record leave no trace, however many there are. */
  lemma {:induction false} UnrecordedTriesAreFree(tries: seq<Try>)
    requires forall t :: t in tries ==> !t.recorded
    ensures StateAfter(tries) == CLEAN && Failures(tries) == []
  {
    if tries != [] {
      UnrecordedTriesAreFree(tries[..|tries| - 1]);
    }
  }

  /** In the long run: a quarter of an hour for each further failure. */
  lemma {:induction false} WaitsInTheLongRun(n: nat)
    requires n >= 25
    ensures Waits(n) >= 900_000 * (n - 24)
  {
    assert LockSeconds(n) == 900 by {
      Pow2Grows(4, n / 5 - 1);
      assert Pow2(1) == 2 && Pow2(2) == 4 && Pow2(3) == 8;
      assert Pow2(4) == 16;
    }
    if n > 25 {
      WaitsInTheLongRun(n - 1);
    }
  }
}
