/** The backoff of the retry middleware (`wrapper/retry/retry.go`) in `float64`: the code, and what
    `Exponential` says of it. */
module Backoff {
  import opened Prelude
  import opened Float64
  import E = Exponential

  type Policy = E.Policy

  function Product(p: Policy, attempt: nat): Float {
    E.Product(Round, p, attempt)
  }

  /** The sleep after failed attempt number `attempt`. */
  function Delay(p: Policy, attempt: nat): (d: int)
    ensures d <= p.cap
  {
    E.Delay(Round, p, attempt)
  }

  /** The multiplication loop of `pow`. */
  method Pow(base: Float, exp: Float, outOfRange: int) returns (result: Float)
    ensures result == E.Power(Round, base, Max(0, ToInt64(exp, outOfRange)))
  {
    result := Num(1.0);
    var i := 0;
    while i < ToInt64(exp, outOfRange)
      invariant 0 <= i <= Max(0, ToInt64(exp, outOfRange))
      invariant result == E.Power(Round, base, i)
    {
      result := Mul(Round, result, base);
      i := i + 1;
    }
  }

  /** The delay as the middleware computes it: the product of `initial` and `pow`, converted and
      then capped. */
  method DelayFor(p: Policy, attempt: nat) returns (backoff: int)
    ensures backoff == Delay(p, attempt)
  {
    var factor := Pow(p.multiplier, E.FromInt(Round, attempt), p.outOfRange);
    backoff := ToInt64(Mul(Round, E.FromInt(Round, p.initial), factor), p.outOfRange);
    if backoff > p.cap {
      backoff := p.cap;
    }
  }

  /** The attempt number survives its conversion to `float64`: all but the largest 64-bit ones. */
  predicate Countable(attempt: nat) {
    E.Countable(Round, attempt)
  }

  /** For every schedule that should grow, the delays of attempts `0..n` are non-decreasing if and
      only if the last product fits a 64-bit duration, or not even the first one does. */
  lemma DelaysGrowIff(p: Policy, n: nat)
    requires E.Growing(p) && Countable(n)
    ensures E.NeverShrink(Round, p, n) <==> Fits(Product(p, n)) || !Fits(Product(p, 0))
  {
    RoundIsRounding();
    E.DelaysGrowIff(Round, p, n);
  }

  /** On a platform whose out-of-range conversion is `INT64_MIN`, the delay is the capped
      exponential exactly when the product, as rounded, fits. */
  lemma DelayIsCappedIffFits(p: Policy, attempt: nat)
    requires p.cap >= 0 && p.outOfRange == INT64_MIN
    ensures Delay(p, attempt) == E.Capped(Round, p, attempt) <==> Fits(Product(p, attempt))
  {
    E.DelayIsCappedIffFits(Round, p, attempt);
  }

  /** As long as nothing needs rounding, the delay is the initial backoff times the mathematical power,
      capped, if and only if that exponential fits a 64-bit duration. */
  lemma DelayIsExponentialIff(p: Policy, n: nat)
    requires E.NothingRounded(Round, p, n) && p.cap >= 0 && p.outOfRange == INT64_MIN
    ensures Delay(p, n) == Min(Trunc(E.Exact(p, n)), p.cap) <==> Fits(Num(E.Exact(p, n)))
  {
    RoundIsRounding();
    E.DelayIsExponentialIff(Round, p, n);
  }

  /** With the default options the uncapped product fits exactly up to attempt 34. */
  lemma DefaultsFitIff(attempt: nat)
    requires Countable(attempt)
    ensures Fits(Product(E.DEFAULTS, attempt)) <==> attempt <= 34
  {
    RoundIsRounding();
    E.DefaultsFitIff(Round, attempt);
  }

  /** The default schedule is 0.5, 1, 2, 4, 8 seconds and then the ten-second cap, up to
      attempt 34; attempt 35 is the first to leave it. */
  lemma DefaultSchedule(attempt: nat)
    requires Countable(attempt)
    ensures attempt < 5 ==> Delay(E.DEFAULTS, attempt) == E.FIRST_DELAYS[attempt] * E.MILLISECOND
    ensures 5 <= attempt <= 34 ==> Delay(E.DEFAULTS, attempt) == 10 * E.SECOND
    ensures attempt >= 35 ==> Delay(E.DEFAULTS, attempt) == INT64_MIN
  {
    RoundIsRounding();
    E.DefaultSchedule(Round, attempt);
  }

  // ---- Where schedules break ----

  /** Doubling from zero: at attempt 1024 the power is infinite, its product with zero is not a number, and
      the delay turns negative. */
  lemma ZeroBreaksAt1024(cap: nat)
    ensures var p := E.Policy(0, cap, Num(2.0), INT64_MIN); Delay(p, 1023) == 0 && Delay(p, 1024) == INT64_MIN
  {
    var p := E.Policy(0, cap, Num(2.0), INT64_MIN);
    RoundIsRounding();
    E.SmallIntIsExact(Round, 1023);
    E.SmallIntIsExact(Round, 1024);
    E.PowerOfTwo(Round, 1023);
    InfinitePower();
    E.ZeroMeetsInfinity(Round, p, 1023);
    E.ZeroMeetsInfinity(Round, p, 1024);
  }

  lemma InfinitePower()
    ensures E.Power(Round, Num(2.0), 1024) == PosInf
  {
    RoundIsRounding();
    E.PowerOfTwo(Round, 1023);
    Overflow();
    E.NextPowerOfTwo(Round, 1023);
  }

  /** The largest duration is rounded out of range, so that even its first delay is negative. */
  lemma LargestBreaksAtOnce(p: Policy)
    requires E.Growing(p) && p.initial == INT64_LIMIT - 1
    ensures Delay(p, 0) == INT64_MIN
  {
    RoundIsRounding();
    LargestInt();
    E.FirstFitsIff(Round, p);
  }
}
