/** The bounded retry of the shared-database bootstrap, and how long it can sleep in all. */
module Retry {
  import opened Wrappers

  datatype RetryPolicy = RetryPolicy(attempts: int, delaySeconds: real, backoff: real, jitter: real)

  const DB_OPEN_RETRY_POLICY := RetryPolicy(5, 1.0, 2.0, 0.2)

  function Pow(base: real, exponent: nat): real {
    if exponent == 0 then 1.0 else base * Pow(base, exponent - 1)
  }

  /** `u` is the jitter drawn for this attempt, uniformly from [-jitter, jitter]. */
  function DelayForAttempt(p: RetryPolicy, attempt: int, u: real): real {
    var k := if attempt < 1 then 1 else attempt;
    var d := p.delaySeconds * Pow(p.backoff, k - 1) + u;
    if d > 0.0 then d else 0.0
  }

  /** `_bootstrap_with_retry`: `attempt(i)` is the error the i-th attempt raises, if any. Success is
      reported exactly when some allowed attempt succeeds, after that attempt and one sleep less; a
      failure is the last attempt's error. With no attempt allowed, none is made and success is
      reported all the same. */
  method BootstrapWithRetry<E>(p: RetryPolicy, attempt: int -> Option<E>, jitter: int -> real)
    returns (error: Option<E>, made: int, sleeps: seq<real>)
    ensures error.None? <==> p.attempts <= 0 || exists i :: 1 <= i <= p.attempts && attempt(i).None?
    ensures p.attempts <= 0 ==> made == 0 && sleeps == []
    ensures p.attempts >= 1 ==> 1 <= made <= p.attempts && |sleeps| == made - 1
    ensures p.attempts >= 1 ==> forall i :: 1 <= i < made ==> attempt(i).Some?
    ensures p.attempts >= 1 && error.None? ==> attempt(made).None?
    ensures error.Some? ==> made == p.attempts && error == attempt(p.attempts)
    ensures forall k :: 0 <= k < |sleeps| ==> sleeps[k] == DelayForAttempt(p, k + 1, jitter(k + 1))
  {
    error, made, sleeps := None, 0, [];
    while made < p.attempts
      invariant p.attempts <= 0 ==> made == 0 && sleeps == []
      invariant p.attempts >= 1 ==> 0 <= made < p.attempts && |sleeps| == made
      invariant error.Some? <==> made >= 1
      invariant forall i :: 1 <= i <= made ==> attempt(i).Some?
      invariant forall k :: 0 <= k < |sleeps| ==> sleeps[k] == DelayForAttempt(p, k + 1, jitter(k + 1))
      decreases p.attempts - made
    {
      made := made + 1;
      var raised := attempt(made);
      if raised.None? {
        return None, made, sleeps;
      }
      error := raised;
      if made >= p.attempts {
        return error, made, sleeps;
      }
      sleeps := sleeps + [DelayForAttempt(p, made, jitter(made))];
    }
  }

  function Total(sleeps: seq<real>): real {
    if sleeps == [] then 0.0 else Total(sleeps[..|sleeps| - 1]) + sleeps[|sleeps| - 1]
  }

  /** d + d*m + ... + d*m^(n-1) */
  function Geometric(d: real, m: real, n: nat): real {
    if n == 0 then 0.0 else Geometric(d, m, n - 1) + d * Pow(m, n - 1)
  }

  lemma {:induction false} GeometricClosedForm(d: real, m: real, n: nat)
    ensures Geometric(d, m, n) * (m - 1.0) == d * (Pow(m, n) - 1.0)
  {
    if n > 0 {
      GeometricClosedForm(d, m, n - 1);
      var g, q := Geometric(d, m, n - 1), Pow(m, n - 1);
      assert (g + d * q) * (m - 1.0) == g * (m - 1.0) + d * q * (m - 1.0);
      assert d * q * (m - 1.0) == d * (m * q) - d * q;
      assert d * (q - 1.0) == d * q - d && d * (m * q - 1.0) == d * (m * q) - d;
    }
  }

  lemma {:induction false} PowNonNegative(m: real, n: nat)
    requires m >= 0.0
    ensures Pow(m, n) >= 0.0
  {
    if n > 0 {
      PowNonNegative(m, n - 1);
    }
  }

  lemma {:induction false} GeometricMonotone(d: real, m: real, k: nat, n: nat)
    requires d >= 0.0 && m >= 0.0 && k <= n
    ensures Geometric(d, m, k) <= Geometric(d, m, n)
    decreases n
  {
    if k < n {
      GeometricMonotone(d, m, k, n - 1);
      PowNonNegative(m, n - 1);
    }
  }

  /** The most that k sleeps can add up to. */
  function Upper(p: RetryPolicy, k: nat): real {
    Geometric(p.delaySeconds, p.backoff, k) + k as real * p.jitter
  }

  lemma UpperStep(p: RetryPolicy, n: nat)
    requires n >= 1
    ensures Upper(p, n) == Upper(p, n - 1) + p.delaySeconds * Pow(p.backoff, n - 1) + p.jitter
  {
    assert n as real * p.jitter == (n - 1) as real * p.jitter + p.jitter;
  }

  lemma DelayBound(p: RetryPolicy, k: nat, j: real)
    requires p.delaySeconds >= 0.0 && p.backoff >= 0.0 && p.jitter >= 0.0 && -p.jitter <= j <= p.jitter && k >= 1
    ensures DelayForAttempt(p, k, j) <= p.delaySeconds * Pow(p.backoff, k - 1) + p.jitter
  {
    PowNonNegative(p.backoff, k - 1);
    hide Pow;
    assert p.delaySeconds * Pow(p.backoff, k - 1) >= 0.0;
  }

  lemma {:induction false} SleepsWithinGeometric(p: RetryPolicy, jitter: int -> real, sleeps: seq<real>)
    requires p.delaySeconds >= 0.0 && p.backoff >= 0.0 && p.jitter >= 0.0
    requires forall k :: -p.jitter <= jitter(k) <= p.jitter
    requires forall k :: 0 <= k < |sleeps| ==> sleeps[k] == DelayForAttempt(p, k + 1, jitter(k + 1))
    ensures Total(sleeps) <= Upper(p, |sleeps|)
  {
    hide DelayForAttempt, Pow, Upper;
    var n := |sleeps|;
    if n == 0 {
      UpperOfNone(p);
    } else {
      SleepsWithinGeometric(p, jitter, sleeps[..n - 1]);
      UpperStep(p, n);
      DelayBound(p, n, jitter(n));
      assert sleeps[n - 1] == DelayForAttempt(p, n, jitter(n));
    }
  }

  lemma UpperOfNone(p: RetryPolicy)
    ensures Upper(p, 0) == 0.0
  {
  }

  /** d*(m^n - 1)/(m - 1) */
  function ClosedForm(d: real, m: real, n: nat): real
    requires m != 1.0
  {
    d * (Pow(m, n) - 1.0) / (m - 1.0)
  }

  function SleepBound(p: RetryPolicy): real
    requires p.backoff != 1.0 && p.attempts >= 1
  {
    ClosedForm(p.delaySeconds, p.backoff, p.attempts - 1) + (p.attempts - 1) as real * p.jitter
  }

  /** In all the bootstrap sleeps at most d*(m^(n-1) - 1)/(m - 1) + (n - 1)*j seconds, for n attempts
      allowed, delay d, backoff m and jitter j. */
  lemma TotalSleepBound(p: RetryPolicy, jitter: int -> real, sleeps: seq<real>)
    requires p.attempts >= 1 && |sleeps| <= p.attempts - 1
    requires p.delaySeconds >= 0.0 && p.backoff >= 0.0 && p.backoff != 1.0 && p.jitter >= 0.0
    requires forall k :: -p.jitter <= jitter(k) <= p.jitter
    requires forall k :: 0 <= k < |sleeps| ==> sleeps[k] == DelayForAttempt(p, k + 1, jitter(k + 1))
    ensures Total(sleeps) <= SleepBound(p)
  {
    hide Upper, SleepBound, Total, Geometric, Pow, DelayForAttempt;
    SleepsWithinGeometric(p, jitter, sleeps);
    UpperMonotone(p, |sleeps|, p.attempts - 1);
    UpperIsBound(p);
  }

  lemma UpperMonotone(p: RetryPolicy, k: nat, n: nat)
    requires p.delaySeconds >= 0.0 && p.backoff >= 0.0 && p.jitter >= 0.0 && k <= n
    ensures Upper(p, k) <= Upper(p, n)
  {
    GeometricMonotone(p.delaySeconds, p.backoff, k, n);
    ScaleUp(k, n, p.jitter);
  }

  lemma UpperIsBound(p: RetryPolicy)
    requires p.attempts >= 1 && p.backoff != 1.0
    ensures Upper(p, p.attempts - 1) == SleepBound(p)
  {
    hide Geometric, ClosedForm;
    GeometricQuotient(p.delaySeconds, p.backoff, p.attempts - 1);
  }

  lemma GeometricQuotient(d: real, m: real, n: nat)
    requires m != 1.0
    ensures Geometric(d, m, n) == ClosedForm(d, m, n)
  {
    GeometricClosedForm(d, m, n);
    DivideBack(Geometric(d, m, n), m - 1.0, d * (Pow(m, n) - 1.0));
  }

  lemma DivideBack(g: real, x: real, y: real)
    requires x != 0.0 && g * x == y
    ensures g == y / x
  {
  }

  lemma ScaleUp(k: int, n: int, j: real)
    requires k <= n && j >= 0.0
    ensures k as real * j <= n as real * j
  {
    assert (n - k) as real * j >= 0.0;
    assert n as real * j == k as real * j + (n - k) as real * j;
  }

  /** The sleep before an attempt is the first delay, multiplied once for every sleep before it, plus the
      jitter, and never negative; without jitter each is the one before multiplied. */
  lemma DelaysMultiply(p: RetryPolicy, k: int, u: real)
    ensures k <= 1 && p.delaySeconds + u >= 0.0 ==> DelayForAttempt(p, k, u) == p.delaySeconds + u
    ensures k >= 1 && p.delaySeconds >= 0.0 && p.backoff >= 0.0 ==>
              DelayForAttempt(p, k + 1, 0.0) == p.backoff * DelayForAttempt(p, k, 0.0)
    ensures k >= 1 && p.delaySeconds >= 0.0 && p.backoff >= 0.0 && DelayForAttempt(p, k, 0.0) + u >= 0.0 ==>
              DelayForAttempt(p, k, u) == DelayForAttempt(p, k, 0.0) + u
    ensures DelayForAttempt(p, k, u) >= 0.0
  {
    if k >= 1 && p.delaySeconds >= 0.0 && p.backoff >= 0.0 {
      var d, m, q := p.delaySeconds, p.backoff, Pow(p.backoff, k - 1);
      PowNonNegative(m, k - 1);
      ProductNonNegative(d, q);
      ProductNonNegative(m, d * q);
      assert m * (d * q) == d * (m * q);
    }
  }

  lemma ProductNonNegative(a: real, b: real)
    requires a >= 0.0 && b >= 0.0
    ensures a * b >= 0.0
  {
  }

  /** The shipped policy makes five attempts, after sleeps of one, two, four and eight seconds, each up to
      a fifth of a second more or less. */
  lemma ShippedSleeps(u: real)
    requires -0.2 <= u <= 0.2
    ensures var p := DB_OPEN_RETRY_POLICY;
      && p.attempts == 5 && p.jitter == 0.2
      && DelayForAttempt(p, 1, u) == 1.0 + u && DelayForAttempt(p, 2, u) == 2.0 + u
      && DelayForAttempt(p, 3, u) == 4.0 + u && DelayForAttempt(p, 4, u) == 8.0 + u
  {
    assert Pow(2.0, 1) == 2.0 * Pow(2.0, 0);
    assert Pow(2.0, 2) == 2.0 * Pow(2.0, 1);
    assert Pow(2.0, 3) == 2.0 * Pow(2.0, 2);
  }

  /** With the shipped policy that is 15.8 seconds, well inside the minute the startup waits. */
  lemma ShippedPolicySleepsUnder16Seconds(jitter: int -> real, sleeps: seq<real>)
    requires |sleeps| <= 4
    requires forall k :: -0.2 <= jitter(k) <= 0.2
    requires forall k :: 0 <= k < |sleeps| ==> sleeps[k] == DelayForAttempt(DB_OPEN_RETRY_POLICY, k + 1, jitter(k + 1))
    ensures Total(sleeps) <= 15.8
  {
    TotalSleepBound(DB_OPEN_RETRY_POLICY, jitter, sleeps);
    assert Pow(2.0, 1) == 2.0 * Pow(2.0, 0);
    assert Pow(2.0, 2) == 2.0 * Pow(2.0, 1);
    assert Pow(2.0, 3) == 2.0 * Pow(2.0, 2);
    assert Pow(2.0, 4) == 16.0;
  }
}
