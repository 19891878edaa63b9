/** Bounded retry: clients/retry.py. */
module Retry {

  /** What one call of `fn` does: it returns, or it throws. */
  datatype Attempt<+T, +E> = Returned(value: T) | Threw(error: E)

  /** How the whole call ends. `Unreachable` is the assertion error behind the loop. */
  datatype Verdict<+T, +E> = Value(value: T) | Error(error: E) | Unreachable

  /** The attempt failed in a way that the classifier allows to be tried again. */
  predicate Retried<T, E>(attempt: Attempt<T, E>, retryable: E -> bool) {
    attempt.Threw? && retryable(attempt.error)
  }

  /** Another attempt is made only while there is budget and everything so far was retryable. */
  predicate MayAttempt<T, E>(made: seq<Attempt<T, E>>, retryable: E -> bool, maxAttempts: int) {
    && |made| < maxAttempts
    && forall i :: 0 <= i < |made| ==> Retried(made[i], retryable)
  }

  /** A list of attempts that the loop can have made so far, finished or not. */
  predicate Transcript<T, E>(made: seq<Attempt<T, E>>, retryable: E -> bool, maxAttempts: int) {
    made == [] || MayAttempt(made[..|made| - 1], retryable, maxAttempts)
  }

  /** A transcript the loop stops at. */
  predicate Complete<T, E>(made: seq<Attempt<T, E>>, retryable: E -> bool, maxAttempts: int) {
    Transcript(made, retryable, maxAttempts) && !MayAttempt(made, retryable, maxAttempts)
  }

  /** The loop's answer: the last attempt, whatever it did. */
  function VerdictOf<T, E>(made: seq<Attempt<T, E>>): Verdict<T, E> {
    if made == [] then Unreachable
    else match made[|made| - 1]
         case Returned(value) => Value(value)
         case Threw(error) => Error(error)
  }

  function Min(a: real, b: real): real { if a < b then a else b }

  function Pow2(k: nat): real { if k == 0 then 1.0 else 2.0 * Pow2(k - 1) }

  /** The capped exponential delay before jitter. */
  function Delay(baseDelay: real, maxDelay: real, attempt: nat): real {
    Min(maxDelay, baseDelay * Pow2(attempt))
  }

  function Total(sleeps: seq<real>): real {
    if sleeps == [] then 0.0 else Total(sleeps[..|sleeps| - 1]) + sleeps[|sleeps| - 1]
  }

  /** The attempts are the ones `fn` gives, in order. */
  ghost predicate Follows<T, E>(made: seq<Attempt<T, E>>, fn: nat -> Attempt<T, E>) {
    forall i :: 0 <= i < |made| ==> made[i] == fn(i)
  }

  ghost predicate SleptBetween(sleeps: seq<real>, baseDelay: real, maxDelay: real, jitter: nat -> real) {
    forall i :: 0 <= i < |sleeps| ==> sleeps[i] == Delay(baseDelay, maxDelay, i) * jitter(i)
  }

  /**
    The retry loop. `fn(k)` is what attempt `k` would do and `jitter(k)` the random factor drawn
    after it; the attempts made and the sleeps between them are returned with the verdict.
   */
  method CallWithRetry<T, E>(fn: nat -> Attempt<T, E>, retryable: E -> bool, maxAttempts: int,
                             baseDelay: real, maxDelay: real, jitter: nat -> real)
    returns (verdict: Verdict<T, E>, made: seq<Attempt<T, E>>, sleeps: seq<real>)
    ensures Follows(made, fn) && Complete(made, retryable, maxAttempts) && verdict == VerdictOf(made)
    ensures made == [] <==> maxAttempts <= 0
    ensures forall i :: 0 <= i < |made| ==>
              (i + 1 < |made| <==> made[i].Threw? && retryable(made[i].error) && i + 1 < maxAttempts)
    ensures |sleeps| == if made == [] then 0 else |made| - 1
    ensures SleptBetween(sleeps, baseDelay, maxDelay, jitter)
    ensures forall i :: 0 <= i < |sleeps| ==> sleeps[i] == Delay(baseDelay, maxDelay, i) * jitter(i)
  {
    made, sleeps := [], [];
    for attempt := 0 to if maxAttempts < 0 then 0 else maxAttempts
      invariant maxAttempts >= 1 ==> attempt < maxAttempts
      invariant |made| == |sleeps| == attempt
      invariant Follows(made, fn)
      invariant forall i :: 0 <= i < |made| ==> Retried(made[i], retryable)
      invariant SleptBetween(sleeps, baseDelay, maxDelay, jitter)
    {
      var outcome := fn(attempt);
      ghost var before := made;
      made := made + [outcome];
      assert made[..|made| - 1] == before;
      match outcome
      case Returned(value) =>
        assert !Retried(made[attempt], retryable);
        return Value(value), made, sleeps;
      case Threw(error) =>
        if attempt == maxAttempts - 1 || !retryable(error) {
          assert !retryable(error) ==> !Retried(made[attempt], retryable);
          return Error(error), made, sleeps;
        }
        sleeps := sleeps + [Delay(baseDelay, maxDelay, attempt) * jitter(attempt)];
    }
    return Unreachable, made, sleeps;
  }

  /**
    The retry contract: with at least one attempt allowed, the value of attempt `k` is returned
    exactly when every earlier attempt failed retryably, within the budget; and an error is raised
    exactly when attempt `k` failed, every earlier one failed retryably, and it was either not
    retryable or the last one allowed.
   */
  lemma {:induction false} VerdictExactly<T(!new), E(!new)>(
    made: seq<Attempt<T, E>>, fn: nat -> Attempt<T, E>, retryable: E -> bool, maxAttempts: int)
    requires maxAttempts >= 1
    requires Follows(made, fn) && Complete(made, retryable, maxAttempts)
    ensures made != []
    ensures forall v :: VerdictOf(made) == Value(v) <==>
                        exists k: nat :: k < maxAttempts && fn(k) == Returned(v) && AllRetried(fn, retryable, k)
    ensures forall e :: VerdictOf(made) == Error(e) <==>
                        exists k: nat :: k < maxAttempts && fn(k) == Threw(e) && AllRetried(fn, retryable, k)
                                         && (k == maxAttempts - 1 || !retryable(e))
  {
    var last: nat := |made| - 1;
    assert forall i :: 0 <= i < last ==> made[..last][i] == made[i] == fn(i);
    assert made[last] == fn(last);
  }

  ghost predicate AllRetried<T, E>(fn: nat -> Attempt<T, E>, retryable: E -> bool, k: nat) {
    forall i: nat :: i < k ==> Retried(fn(i), retryable)
  }

  /** How many of the attempts took effect on the other side. */
  function Reached<T, E>(made: seq<Attempt<T, E>>, reaches: Attempt<T, E> -> bool): nat {
    if made == [] then 0
    else Reached(made[..|made| - 1], reaches) + if reaches(made[|made| - 1]) then 1 else 0
  }

  /**
    The delays, exactly: the first is the base delay, each next one twice the one before, and none
    more than the cap. So the default 0.5 and 5 give 0.5, 1, 2, 4 and then 5 seconds.
   */
  lemma DelaysDouble(baseDelay: real, maxDelay: real, attempt: nat)
    requires 0.0 <= baseDelay && 0.0 <= maxDelay
    ensures Delay(baseDelay, maxDelay, 0) == if baseDelay < maxDelay then baseDelay else maxDelay
    ensures var delay, next := Delay(baseDelay, maxDelay, attempt), Delay(baseDelay, maxDelay, attempt + 1);
            next == if 2.0 * delay < maxDelay then 2.0 * delay else maxDelay
  {
    assert baseDelay * Pow2(attempt + 1) == 2.0 * (baseDelay * Pow2(attempt));
    Pow2Monotone(0, attempt);
    NonNegative(baseDelay, Pow2(attempt));
  }

  /** And the jitter keeps each sleep within half and one and a half of its delay. */
  lemma SleepsWithinJitter(sleeps: seq<real>, baseDelay: real, maxDelay: real, jitter: nat -> real, i: nat)
    requires 0.0 <= baseDelay && 0.0 <= maxDelay && i < |sleeps|
    requires forall k: nat :: 0.5 <= jitter(k) <= 1.5
    requires SleptBetween(sleeps, baseDelay, maxDelay, jitter)
    ensures 0.5 * Delay(baseDelay, maxDelay, i) <= sleeps[i] <= 1.5 * Delay(baseDelay, maxDelay, i)
  {
    Pow2Monotone(0, i);
    NonNegative(baseDelay, Pow2(i));
    var delay := Delay(baseDelay, maxDelay, i);
    NonNegative(delay, jitter(i) - 0.5);
    NonNegative(delay, 1.5 - jitter(i));
  }

  /** If a retryable failure never reached the other side, a whole retried call reaches it at most once. */
  lemma {:induction false} ReachesAtMostOnce<T(!new), E(!new)>(
    made: seq<Attempt<T, E>>, retryable: E -> bool, maxAttempts: int, reaches: Attempt<T, E> -> bool)
    requires forall a :: Retried(a, retryable) ==> !reaches(a)
    requires Transcript(made, retryable, maxAttempts)
    ensures Reached(made, reaches) <= 1
    ensures MayAttempt(made, retryable, maxAttempts) ==> Reached(made, reaches) == 0
  {
    if made != [] {
      NoneReached(made[..|made| - 1], retryable, reaches);
      if MayAttempt(made, retryable, maxAttempts) {
        NoneReached(made, retryable, reaches);
      }
    }
  }

  /** If nothing but a retryable failure fails to reach it, then it is reached exactly if the last attempt is no such failure. */
  lemma LastAloneReaches<T(!new), E(!new)>(
    made: seq<Attempt<T, E>>, retryable: E -> bool, maxAttempts: int, reaches: Attempt<T, E> -> bool)
    requires forall a :: Retried(a, retryable) ==> !reaches(a)
    requires made != [] && Transcript(made, retryable, maxAttempts)
    ensures Reached(made, reaches) == if reaches(made[|made| - 1]) then 1 else 0
  {
    NoneReached(made[..|made| - 1], retryable, reaches);
  }

  lemma {:induction false} NoneReached<T(!new), E(!new)>(
    made: seq<Attempt<T, E>>, retryable: E -> bool, reaches: Attempt<T, E> -> bool)
    requires forall a :: Retried(a, retryable) ==> !reaches(a)
    requires forall i :: 0 <= i < |made| ==> Retried(made[i], retryable)
    ensures Reached(made, reaches) == 0
  {
    if made != [] {
      var init := made[..|made| - 1];
      assert forall i :: 0 <= i < |init| ==> init[i] == made[i];
      NoneReached(init, retryable, reaches);
      assert Retried(made[|made| - 1], retryable);
    }
  }

  /**
    The sleep bound: whatever the jitter draws, a call of `n` attempts sleeps in all at most 1.5
    times the smaller of `(n - 1) * maxDelay` and the geometric sum `baseDelay * (2^(n-1) - 1)`.
   */
  lemma {:induction false} TotalSleepBound(sleeps: seq<real>, n: nat, baseDelay: real, maxDelay: real, jitter: nat -> real)
    requires baseDelay >= 0.0 && maxDelay >= 0.0
    requires forall k: nat :: 0.5 <= jitter(k) <= 1.5
    requires SleptBetween(sleeps, baseDelay, maxDelay, jitter)
    requires |sleeps| <= n - 1
    ensures 0.0 <= Total(sleeps) <= 1.5 * (maxDelay * (n - 1) as real)
    ensures Total(sleeps) <= 1.5 * (baseDelay * (Pow2(n - 1) - 1.0))
  {
    EachSleep(sleeps, baseDelay, maxDelay, jitter);
    LinearBound(sleeps, n - 1, maxDelay);
    GeometricBound(sleeps, n - 1, baseDelay);
  }

  lemma LinearBound(sleeps: seq<real>, n: nat, c: real)
    requires c >= 0.0 && LinearlyBounded(sleeps, c) && |sleeps| <= n
    ensures 0.0 <= Total(sleeps) <= 1.5 * (c * n as real)
  {
    LinearTotal(sleeps, c);
    Weaken(Total(sleeps), c, |sleeps| as real, n as real);
  }

  lemma GeometricBound(sleeps: seq<real>, n: nat, d: real)
    requires d >= 0.0 && GeometricallyBounded(sleeps, d) && |sleeps| <= n
    ensures Total(sleeps) <= 1.5 * (d * (Pow2(n) - 1.0))
  {
    GeometricTotal(sleeps, d);
    MorePowers(Total(sleeps), d, |sleeps|, n);
  }

  lemma MorePowers(t: real, d: real, m: nat, n: nat)
    requires d >= 0.0 && m <= n && t <= 1.5 * (d * (Pow2(m) - 1.0))
    ensures t <= 1.5 * (d * (Pow2(n) - 1.0))
  {
    Pow2Monotone(m, n);
    Weaken(t, d, Pow2(m) - 1.0, Pow2(n) - 1.0);
  }

  ghost predicate LinearlyBounded(sleeps: seq<real>, c: real) {
    forall i: nat :: i < |sleeps| ==> 0.0 <= sleeps[i] <= 1.5 * c
  }

  ghost predicate GeometricallyBounded(sleeps: seq<real>, d: real) {
    forall i: nat :: i < |sleeps| ==> sleeps[i] <= 1.5 * (d * Pow2(i))
  }

  lemma EachSleep(sleeps: seq<real>, baseDelay: real, maxDelay: real, jitter: nat -> real)
    requires baseDelay >= 0.0 && maxDelay >= 0.0
    requires forall k: nat :: 0.5 <= jitter(k) <= 1.5
    requires SleptBetween(sleeps, baseDelay, maxDelay, jitter)
    ensures LinearlyBounded(sleeps, maxDelay) && GeometricallyBounded(sleeps, baseDelay)
  {
    forall i: nat | i < |sleeps|
      ensures 0.0 <= sleeps[i] <= 1.5 * maxDelay
      ensures sleeps[i] <= 1.5 * (baseDelay * Pow2(i))
    {
      Pow2Monotone(0, i);
      OneSleep(baseDelay, maxDelay, Pow2(i), jitter(i));
    }
  }

  lemma OneSleep(baseDelay: real, maxDelay: real, power: real, factor: real)
    requires baseDelay >= 0.0 && maxDelay >= 0.0 && 0.5 <= factor <= 1.5 && power >= 1.0
    ensures 0.0 <= Min(maxDelay, baseDelay * power) * factor <= 1.5 * maxDelay
    ensures Min(maxDelay, baseDelay * power) * factor <= 1.5 * (baseDelay * power)
  {
    NonNegative(baseDelay, power);
    Capped(baseDelay * power, maxDelay, factor);
  }

  lemma {:induction false} LinearTotal(sleeps: seq<real>, c: real)
    requires LinearlyBounded(sleeps, c)
    ensures 0.0 <= Total(sleeps) <= 1.5 * (c * |sleeps| as real)
  {
    if sleeps != [] {
      var k: nat := |sleeps| - 1;
      LinearTotal(sleeps[..k], c);
      assert c * (k + 1) as real == c * k as real + c;
    }
  }

  lemma {:induction false} GeometricTotal(sleeps: seq<real>, d: real)
    requires GeometricallyBounded(sleeps, d)
    ensures Total(sleeps) <= 1.5 * (d * (Pow2(|sleeps|) - 1.0))
  {
    if sleeps != [] {
      var k: nat := |sleeps| - 1;
      GeometricTotal(sleeps[..k], d);
      assert d * (2.0 * Pow2(k) - 1.0) == d * (Pow2(k) - 1.0) + d * Pow2(k);
    }
  }

  lemma Capped(x: real, cap: real, factor: real)
    requires x >= 0.0 && cap >= 0.0 && 0.5 <= factor <= 1.5
    ensures 0.0 <= Min(cap, x) * factor <= 1.5 * cap
    ensures Min(cap, x) * factor <= 1.5 * x
  {
    Jittered(Min(cap, x), factor);
  }

  lemma Jittered(delay: real, factor: real)
    requires delay >= 0.0 && 0.5 <= factor <= 1.5
    ensures 0.0 <= delay * factor <= 1.5 * delay
  {
    NonNegative(delay, factor);
    NonNegative(delay, 1.5 - factor);
  }

  lemma {:induction false} Pow2Monotone(i: nat, j: nat)
    requires i <= j
    ensures 1.0 <= Pow2(i) <= Pow2(j)
  {
    if i < j {
      Pow2Monotone(i, j - 1);
    } else if i > 0 {
      Pow2Monotone(i - 1, j - 1);
    }
  }

  lemma NonNegative(a: real, b: real)
    requires a >= 0.0 && b >= 0.0
    ensures a * b >= 0.0
  {
  }

  lemma Weaken(t: real, c: real, a: real, b: real)
    requires t <= 1.5 * (c * a) && a <= b && c >= 0.0
    ensures t <= 1.5 * (c * b)
  {
    NonNegative(c, b - a);
  }
}
