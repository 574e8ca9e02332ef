/** The retry delay of internal/worker and the schedule it gives a job that keeps failing. */
module Backoff {
  import opened Types
  import opened Table

  const SECOND: int := 1_000_000_000
  const CAP: nat := 600

  function Pow2(n: nat): (p: nat)
    ensures p >= 1
  {
    if n == 0 then 1 else 2 * Pow2(n - 1)
  }

  /** min(2^max(attempts, 1), 600), in seconds. */
  function Base(attempts: int): nat {
    var p := Pow2(if attempts < 1 then 1 else attempts);
    if p > CAP then CAP else p
  }

  /** The random factor, 0.75 plus at most one half. */
  predicate IsJitter(x: real) {
    0.75 <= x <= 1.25
  }

  /** The conversion to a duration truncates to whole nanoseconds. */
  function Nanoseconds(seconds: real): Time {
    (seconds * SECOND as real).Floor
  }

  function Jittered(base: nat, jitter: real): Time {
    Nanoseconds(base as real * jitter)
  }

  function Compute(attempts: int, jitter: real): Time {
    Jittered(Base(attempts), jitter)
  }

  /** The delays that the handler failures of a job schedule, from row `j` until it goes dead.
      The worker computes each delay from the attempts it read when it claimed the row. */
  function Delays(j: Job, jitters: seq<real>): seq<Time>
    requires j.attempts < j.maxAttempts <= j.attempts + |jitters|
    decreases j.maxAttempts - j.attempts
  {
    var delay := Compute(j.attempts + 1, jitters[0]);
    var j' := AfterFailure(j, "handler error", delay);
    if j'.status == Dead then [] else [delay] + Delays(j', jitters[1..])
  }

  function Sum(s: seq<Time>): Time {
    if s == [] then 0 else s[0] + Sum(s[1..])
  }

  /** Base(lo) + ... + Base(hi - 1). */
  function BaseSum(lo: nat, hi: nat): nat
    decreases hi - lo
  {
    if lo >= hi then 0 else Base(lo) + BaseSum(lo + 1, hi)
  }

  /** A delay between 0.75 and 1.25 times `seconds`. */
  predicate Within(delay: Time, seconds: int) {
    3_000_000_000 * seconds <= 4 * delay <= 5_000_000_000 * seconds
  }

  lemma Scaled(x: real, jitter: real, p: real)
    requires x >= 0.0 && IsJitter(jitter) && p == x * jitter
    ensures 3.0 * x <= 4.0 * p <= 5.0 * x
  {
    assert x * (jitter - 0.75) >= 0.0;
    assert x * (1.25 - jitter) >= 0.0;
  }

  lemma Truncated(p: real, b: nat)
    requires 3.0 * b as real <= 4.0 * p <= 5.0 * b as real
    ensures Within(Nanoseconds(p), b)
  {
    var n := p * 1_000_000_000.0;
    assert (750_000_000 * b) as real <= n <= (1_250_000_000 * b) as real;
  }

  lemma JitteredWithin(b: nat, jitter: real)
    requires IsJitter(jitter)
    ensures Within(Jittered(b, jitter), b)
  {
    var p := b as real * jitter;
    Scaled(b as real, jitter, p);
    Truncated(p, b);
    assert Jittered(b, jitter) == Nanoseconds(p);
  }

  lemma ComputeWithin(attempts: int, jitter: real)
    requires IsJitter(jitter)
    ensures Within(Compute(attempts, jitter), Base(attempts))
  {
    JitteredWithin(Base(attempts), jitter);
  }

  lemma Pow2Monotone(a: nat, b: nat)
    requires a <= b
    ensures Pow2(a) <= Pow2(b)
    decreases b
  {
    if a < b {
      Pow2Monotone(a, b - 1);
    }
  }

  lemma BaseValue(k: nat)
    requires k >= 1
    ensures Base(k) == if k <= 9 then Pow2(k) else CAP
    ensures 2 <= Base(k) <= CAP
  {
    Pow2Monotone(1, k);
    assert Pow2(1) == 2;
    assert Pow2(9) == 512 by { assert Pow2(5) == 32; }
    if k <= 9 { Pow2Monotone(k, 9); } else { Pow2Monotone(10, k); }
  }

  /** Every single delay lies between 1.5 s and 750 s. */
  lemma DelayBounds(attempts: int, jitter: real)
    requires IsJitter(jitter)
    ensures 1_500_000_000 <= Compute(attempts, jitter) <= 750 * SECOND
  {
    ComputeWithin(attempts, jitter);
    BaseValue(if attempts < 1 then 1 else attempts);
  }

  /** The delay after the k-th attempt is 2^k seconds, but at most 600, times the jitter, to within a nanosecond. */
  lemma DelayExactly(k: nat, jitter: real)
    requires k >= 1
    ensures var exact := (if k <= 9 then Pow2(k) else 600) as real * jitter * 1_000_000_000.0;
            Compute(k, jitter) as real <= exact < Compute(k, jitter) as real + 1.0
    ensures Pow2(k) == 2 * Pow2(k - 1) && Pow2(0) == 1
  {
    BaseValue(k);
  }

  lemma {:induction false} DelaysSum(j: Job, jitters: seq<real>)
    requires j.attempts < j.maxAttempts <= j.attempts + |jitters|
    requires forall i :: 0 <= i < |jitters| ==> IsJitter(jitters[i])
    ensures |Delays(j, jitters)| == j.maxAttempts - j.attempts - 1
    ensures Within(Sum(Delays(j, jitters)), BaseSum(j.attempts + 1, j.maxAttempts))
    decreases j.maxAttempts - j.attempts
  {
    if j.attempts + 1 < j.maxAttempts {
      var delay := Compute(j.attempts + 1, jitters[0]);
      var j' := AfterFailure(j, "handler error", delay);
      ComputeWithin(j.attempts + 1, jitters[0]);
      DelaysSum(j', jitters[1..]);
      assert Delays(j, jitters) == [delay] + Delays(j', jitters[1..]);
    }
  }

  lemma {:induction false} BaseSumSnoc(lo: nat, hi: nat)
    requires lo <= hi
    ensures BaseSum(lo, hi + 1) == BaseSum(lo, hi) + Base(hi)
    decreases hi - lo
  {
    if lo < hi {
      BaseSumSnoc(lo + 1, hi);
    }
  }

  lemma {:induction false} BaseSumClosed(m: nat)
    requires m >= 1
    ensures m <= 10 ==> BaseSum(1, m) == Pow2(m) - 2
    ensures m >= 10 ==> BaseSum(1, m) == 1022 + 600 * (m - 10)
  {
    if m > 1 {
      BaseSumClosed(m - 1);
      BaseSumSnoc(1, m - 1);
      BaseValue(m - 1);
      assert Pow2(10) == 1024 by { assert Pow2(5) == 32; }
    }
  }

  /** A job with `m` attempts that fails every time is delayed m - 1 times before it goes dead,
      for at most 1.25 and at least 0.75 times 2^m - 2 seconds (1022 + 600(m - 10) from ten attempts on). */
  lemma TotalBackoff(j: Job, jitters: seq<real>)
    requires j.attempts == 0 && 1 <= j.maxAttempts <= |jitters|
    requires forall i :: 0 <= i < |jitters| ==> IsJitter(jitters[i])
    ensures var m, total := j.maxAttempts, Sum(Delays(j, jitters));
            var seconds := if m <= 10 then Pow2(m) - 2 else 1022 + 600 * (m - 10);
            && |Delays(j, jitters)| == m - 1
            && Within(total, seconds)
  {
    DelaysSum(j, jitters);
    BaseSumClosed(j.maxAttempts);
  }
}
