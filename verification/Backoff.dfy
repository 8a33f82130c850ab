/**
 Retry delays of internal/worker/worker.go, in exact reals rounded down to whole nanoseconds.
 */
module Backoff {

  const SECOND: int := 1_000_000_000
  const MAX_INT64: int := 0x7fff_ffff_ffff_ffff

  function Pow2(n: nat): nat
    ensures Pow2(n) >= 1
  {
    if n == 0 then 1 else 2 * Pow2(n - 1)
  }

  /** A draw of the jitter source, a real in [0, 1). */
  predicate IsJitter(j: real) { 0.0 <= j < 1.0 }

  /** The smallest delay of a given attempt. */
  function MinDelay(base: nat, attempt: nat): nat
    requires attempt >= 1
  {
    base * Pow2(attempt - 1)
  }

  /** The jitter adds less than one base delay. */
  function JitterShare(base: nat, jitter: real): (share: real)
    requires IsJitter(jitter)
    ensures 0.0 <= share
    ensures base > 0 ==> share < base as real
  {
    if base == 0 then 0.0 else
      Product(jitter, base as real);
      jitter * base as real
  }

  function RetryDelay(base: nat, attempt: nat, jitter: real): int
    requires attempt >= 1 && IsJitter(jitter)
  {
    (MinDelay(base, attempt) as real + JitterShare(base, jitter)).Floor
  }

  /** The retry-after header: a date-time of RFC 3339 (section 5.6) written without a fraction of a second. */
  function WholeSeconds(t: int): (r: int)
    ensures r <= t < r + SECOND && r % SECOND == 0
  {
    t - t % SECOND
  }

  lemma Monotone(a: nat, b: nat)
    requires a <= b
    ensures Pow2(a) <= Pow2(b)
    decreases b
  {
    if a < b { Monotone(a, b - 1); }
  }

  /** Every delay lies in [base * 2^(a-1), base * 2^(a-1) + base). */
  lemma DelayInRange(base: nat, attempt: nat, jitter: real)
    requires attempt >= 1 && IsJitter(jitter)
    ensures MinDelay(base, attempt) <= RetryDelay(base, attempt, jitter)
    ensures base > 0 ==> RetryDelay(base, attempt, jitter) < MinDelay(base, attempt) + base
  {
    FloorOfSum(MinDelay(base, attempt), JitterShare(base, jitter), base);
  }

  /** The delay is the smallest one and the jitter's share of the base delay, rounded down. */
  lemma JitterCounts(base: nat, attempt: nat, jitter: real, extra: int)
    requires attempt >= 1 && IsJitter(jitter)
    ensures RetryDelay(base, attempt, jitter) >= MinDelay(base, attempt) + extra <==> jitter * base as real >= extra as real
  {
    assert base == 0 ==> jitter * base as real == 0.0;
    FloorAtLeast(MinDelay(base, attempt), jitter * base as real, extra);
    hide MinDelay;
  }

  lemma FloorAtLeast(m: int, share: real, extra: int)
    ensures (m as real + share).Floor >= m + extra <==> share >= extra as real
  {}

  lemma FloorOfSum(m: int, extra: real, b: int)
    requires extra >= 0.0
    ensures m <= (m as real + extra).Floor
    ensures extra < b as real ==> (m as real + extra).Floor < m + b
  {}

  lemma Product(j: real, b: real)
    requires IsJitter(j) && b > 0.0
    ensures 0.0 <= j * b < b
  {
    assert (1.0 - j) * b > 0.0;
  }

  /** A later attempt always waits strictly longer, whatever the two jitters were. */
  lemma LaterAttemptWaitsLonger(base: nat, a: nat, b: nat, ja: real, jb: real)
    requires base > 0 && 1 <= a < b && IsJitter(ja) && IsJitter(jb)
    ensures RetryDelay(base, a, ja) < RetryDelay(base, b, jb)
  {
    DelayInRange(base, a, ja);
    DelayInRange(base, b, jb);
    Monotone(a, b - 1);
    Scale(base, Pow2(a), Pow2(b - 1));
    DoubleCovers(base, a);
  }

  /** base * 2^(a-1) + base <= base * 2^a. */
  lemma DoubleCovers(base: nat, a: nat)
    requires a >= 1
    ensures MinDelay(base, a) + base <= base * Pow2(a)
    ensures base * Pow2(a) == 2 * MinDelay(base, a)
  {
    var p := Pow2(a - 1);
    Scale(base, 1, p);
    TwiceTimes(base, p);
  }

  lemma TwiceTimes(k: nat, p: nat)
    ensures k * (2 * p) == 2 * (k * p)
  {}

  lemma Scale(k: nat, x: nat, y: nat)
    requires x <= y
    ensures k * x <= k * y
  {}

  /** No delay a worker asks for (attempts below maxRetries) leaves the signed 64-bit range. */
  lemma DelayFitsInt64(base: nat, maxRetries: nat, attempt: nat, jitter: real)
    requires 1 <= attempt < maxRetries && IsJitter(jitter)
    requires base * Pow2(maxRetries - 1) <= MAX_INT64
    ensures 0 <= RetryDelay(base, attempt, jitter) <= MAX_INT64
  {
    DelayInRange(base, attempt, jitter);
    DoubleCovers(base, attempt);
    Monotone(attempt, maxRetries - 1);
    Scale(base, Pow2(attempt), Pow2(maxRetries - 1));
    if base == 0 { FloorOfSum(0, JitterShare(0, jitter), 1); }
  }

  predicate AllJitters(jitters: seq<real>) { forall i :: 0 <= i < |jitters| ==> IsJitter(jitters[i]) }

  /** Total wait of a copy that is retried after each of its first |jitters| attempts. */
  function TotalDelay(base: nat, jitters: seq<real>): int
    requires AllJitters(jitters)
  {
    if jitters == [] then 0
    else TotalDelay(base, jitters[..|jitters| - 1]) + RetryDelay(base, |jitters|, jitters[|jitters| - 1])
  }

  /** The delays of attempts 1..n add up to base * (2^n - 1) at least, and exceed that by less than n * base. */
  lemma {:induction false} TotalDelayBounds(base: nat, jitters: seq<real>)
    requires base > 0 && AllJitters(jitters)
    ensures base * (Pow2(|jitters|) - 1) <= TotalDelay(base, jitters) <= base * (Pow2(|jitters|) - 1) + |jitters| * base
    ensures jitters != [] ==> TotalDelay(base, jitters) < base * (Pow2(|jitters|) - 1) + |jitters| * base
  {
    if jitters != [] {
      var n := |jitters|;
      TotalDelayBounds(base, jitters[..n - 1]);
      DelayInRange(base, n, jitters[n - 1]);
      SumStep(base, Pow2(n - 1), n, TotalDelay(base, jitters[..n - 1]), RetryDelay(base, n, jitters[n - 1]));
    }
  }

  lemma SumStep(k: nat, p: nat, n: nat, sum: int, last: int)
    requires k > 0 && n >= 1
    requires k * (p - 1) <= sum <= k * (p - 1) + (n - 1) * k && k * p <= last < k * p + k
    ensures k * (2 * p - 1) <= sum + last < k * (2 * p - 1) + n * k
  {
    assert k * (2 * p - 1) == k * (p - 1) + k * p by { Distribute(k, p - 1, p); }
    assert n * k == (n - 1) * k + k by { Distribute(k, n - 1, 1); }
  }

  lemma Distribute(k: int, x: int, y: int)
    ensures k * (x + y) == k * x + k * y
  {}

  /** The header is at most one second earlier than the instant the publisher asked for, and never later. */
  lemma HeaderKeepsBackoff(now: int, base: nat, attempt: nat, jitter: real)
    requires attempt >= 1 && IsJitter(jitter)
    ensures WholeSeconds(now + RetryDelay(base, attempt, jitter)) > now + MinDelay(base, attempt) - SECOND
    ensures WholeSeconds(now + RetryDelay(base, attempt, jitter)) <= now + MinDelay(base, attempt) + base
  {
    DelayInRange(base, attempt, jitter);
    if base == 0 { FloorOfSum(0, 0.0, 1); }
  }
}
