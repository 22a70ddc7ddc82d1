/** The exponential backoff of `wrapper/retry/retry.go` over any rounding of real numbers: what it needs
    of `float64` is stated in `Float64.IsRounding`. */
module Exponential {
  import opened Prelude
  import opened Float64

  const MILLISECOND: int := 1_000_000
  const SECOND: int := 1_000_000_000

  /** The four settings the delay depends on, and the integer this platform's conversion yields
      when the operand is out of range (`INT64_MIN` on amd64). */
  datatype Policy = Policy(initial: int, cap: int, multiplier: Float, outOfRange: int)

  const DEFAULTS: Policy := Policy(500 * MILLISECOND, 10 * SECOND, Num(2.0), INT64_MIN)

  function FromInt(round: real -> Float, i: int): Float {
    round(i as real)
  }

  /** The power that `pow` computes, rounding after every multiplication. */
  function Power(round: real -> Float, base: Float, n: nat): Float {
    if n == 0 then Num(1.0) else Mul(round, Power(round, base, n - 1), base)
  }

  /** How often the loop of `pow` multiplies for a given attempt number, itself a float. */
  function Rounds(round: real -> Float, p: Policy, attempt: nat): nat {
    Max(0, ToInt64(FromInt(round, attempt), p.outOfRange))
  }

  function Product(round: real -> Float, p: Policy, attempt: nat): Float {
    Mul(round, FromInt(round, p.initial), Power(round, p.multiplier, Rounds(round, p, attempt)))
  }

  /** The sleep after failed attempt number `attempt`. */
  function Delay(round: real -> Float, p: Policy, attempt: nat): (d: int)
    ensures d <= p.cap
  {
    Min(ToInt64(Product(round, p, attempt), p.outOfRange), p.cap)
  }

  // ---- What `pow` computes ----

  function RealPower(base: real, n: nat): real {
    if n == 0 then 1.0 else RealPower(base, n - 1) * base
  }

  /** The mathematical power turns sums of exponents into products. */
  lemma {:induction false} PowerAdds(base: real, m: nat, n: nat)
    ensures RealPower(base, m + n) == RealPower(base, m) * RealPower(base, n)
  {
    if n == 0 {
    } else {
      PowerAdds(base, m, n - 1);
      Associate(RealPower(base, m), RealPower(base, n - 1), base);
    }
  }

  lemma MulIs(round: real -> Float, a: real, b: real, x: real)
    requires x == a * b
    ensures Mul(round, Num(a), Num(b)) == round(x)
  {
    assert Times(a, b) == x;
  }

  /** `pow` is the mathematical power as long as no intermediate power needs rounding. */
  lemma {:induction false} PowIsPower(round: real -> Float, base: real, n: nat)
    requires forall k | 0 < k <= n :: round(RealPower(base, k)) == Num(RealPower(base, k))
    ensures Power(round, Num(base), n) == Num(RealPower(base, n))
  {
    if n == 0 {
    } else {
      PowIsPower(round, base, n - 1);
      MulIs(round, RealPower(base, n - 1), base, RealPower(base, n));
    }
  }

  /** A backoff that should grow: it does not start negative, and is multiplied by one or more. */
  predicate Growing(p: Policy) {
    0 <= p.initial < INT64_LIMIT && Le(Num(1.0), p.multiplier) && p.cap >= 0 && p.outOfRange == INT64_MIN
  }

  lemma SmallIntIsExact(round: real -> Float, i: int)
    requires IsRounding(round) && 0 <= i < MANTISSA
    ensures FromInt(round, i) == Num(i as real)
  {
    assert IsExact(i as real, i, 0);
  }

  /** A number that was rounded already. */
  predicate Rounded(round: real -> Float, f: Float) {
    f.Num? ==> f.v >= 0.0 && round(f.v) == f
  }

  lemma AtLeastItself(a: real, b: real)
    requires a >= 0.0 && b >= 1.0
    ensures 0.0 <= a <= Times(a, b)
  {
  }

  lemma NextPower(round: real -> Float, base: Float, p: Float)
    requires IsRounding(round) && Le(Num(1.0), base) && Rounded(round, p) && Le(Num(1.0), p)
    ensures Le(p, Mul(round, p, base)) && Rounded(round, Mul(round, p, base))
  {
    if p.Num? && base.Num? {
      AtLeastItself(p.v, base.v);
    }
  }

  lemma {:induction false} PowerIsRounded(round: real -> Float, base: Float, n: nat)
    requires IsRounding(round) && Le(Num(1.0), base)
    ensures Rounded(round, Power(round, base, n)) && Le(Num(1.0), Power(round, base, n))
  {
    if n == 0 {
      SmallIntIsExact(round, 1);
    } else {
      PowerIsRounded(round, base, n - 1);
      NextPower(round, base, Power(round, base, n - 1));
    }
  }

  lemma {:induction false} PowerGrows(round: real -> Float, base: Float, m: nat, n: nat)
    requires IsRounding(round) && Le(Num(1.0), base) && m <= n
    ensures Le(Num(1.0), Power(round, base, m)) && Le(Power(round, base, m), Power(round, base, n))
    decreases n
  {
    PowerIsRounded(round, base, m);
    if m == n {
    } else {
      PowerGrows(round, base, m, n - 1);
      PowerIsRounded(round, base, n - 1);
      NextPower(round, base, Power(round, base, n - 1));
    }
  }

  // ---- Products ----

  /** The attempt number can be converted there and back: all 64-bit ones but the very largest. */
  predicate Countable(round: real -> Float, attempt: nat) {
    Fits(FromInt(round, attempt))
  }

  lemma FromIntGrows(round: real -> Float, i: int, j: int)
    requires IsRounding(round) && 0 <= i <= j
    ensures Le(FromInt(round, i), FromInt(round, j)) && Le(Num(0.0), FromInt(round, i))
  {
    SmallIntIsExact(round, 0);
    assert Le(round(0.0), round(i as real)) && Le(round(i as real), round(j as real));
  }

  lemma TruncGrows(x: real, y: real)
    requires 0.0 <= x <= y
    ensures 0 <= Trunc(x) <= Trunc(y)
  {
  }

  lemma RoundsGrow(round: real -> Float, p: Policy, a: nat, b: nat)
    requires IsRounding(round) && a <= b && Countable(round, b)
    ensures Rounds(round, p, a) <= Rounds(round, p, b) && Countable(round, a)
  {
    FromIntGrows(round, a, b);
    TruncGrows(FromInt(round, a).v, FromInt(round, b).v);
  }

  lemma LimitIsExact(round: real -> Float)
    requires IsRounding(round)
    ensures FromInt(round, INT64_LIMIT) == Num(INT64_LIMIT as real)
  {
    Pow2Values();
    assert IsExact(INT64_LIMIT as real, 1, 63);
  }

  /** A 64-bit duration is never infinite as a float, and zero only if it is zero. */
  lemma InitialIsNum(round: real -> Float, i: int)
    requires IsRounding(round) && 0 <= i < INT64_LIMIT
    ensures FromInt(round, i).Num? && FromInt(round, i).v >= 0.0
    ensures if i == 0 then FromInt(round, i).v == 0.0 else FromInt(round, i).v >= 1.0
  {
    LimitIsExact(round);
    FromIntGrows(round, i, INT64_LIMIT);
    SmallIntIsExact(round, 0);
    SmallIntIsExact(round, 1);
    if i > 0 {
      FromIntGrows(round, 1, i);
    }
  }

  lemma NumGrows(round: real -> Float, v: real, p: real, q: real)
    requires IsRounding(round) && v >= 0.0 && 0.0 <= p <= q
    ensures Le(Num(0.0), round(Times(v, p))) && Le(round(Times(v, p)), round(Times(v, q)))
  {
    SmallIntIsExact(round, 0);
    FactorGrows(v, p, q);
    RoundOf(round, 0.0, Times(v, p));
    RoundOf(round, Times(v, p), Times(v, q));
  }

  lemma RoundOf(round: real -> Float, x: real, y: real)
    requires IsRounding(round) && 0.0 <= x <= y
    ensures Le(round(x), round(y))
  {
  }

  lemma FactorGrows(v: real, p: real, q: real)
    requires v >= 0.0 && 0.0 <= p <= q
    ensures 0.0 <= Times(v, p) <= Times(v, q)
  {
  }

  /** What multiplying a non-negative number with a growing factor does: it grows, unless zero meets
      infinity. */
  lemma MulGrows(round: real -> Float, v: real, p: Float, q: Float)
    requires IsRounding(round) && v >= 0.0 && Le(Num(1.0), p) && Le(p, q)
    ensures !Mul(round, Num(v), q).NaN? ==>
              Le(Mul(round, Num(v), p), Mul(round, Num(v), q)) && Le(Num(0.0), Mul(round, Num(v), p))
  {
    if p.Num? {
      NumGrows(round, v, p.v, if q.Num? then q.v else p.v);
    }
  }

  lemma ProductGrows(round: real -> Float, p: Policy, a: nat, b: nat)
    requires IsRounding(round) && Growing(p) && a <= b && Countable(round, b) && !Product(round, p, b).NaN?
    ensures Le(Num(0.0), Product(round, p, a)) && Le(Product(round, p, a), Product(round, p, b))
  {
    InitialIsNum(round, p.initial);
    RoundsGrow(round, p, a, b);
    PowerGrows(round, p.multiplier, Rounds(round, p, a), Rounds(round, p, b));
    MulGrows(round, FromInt(round, p.initial).v, Power(round, p.multiplier, Rounds(round, p, a)),
             Power(round, p.multiplier, Rounds(round, p, b)));
  }

  /** Once the product has left the range it does not come back. */
  lemma FitsBefore(round: real -> Float, p: Policy, a: nat, b: nat)
    requires IsRounding(round) && Growing(p) && a <= b && Countable(round, b) && Fits(Product(round, p, b))
    ensures Countable(round, a) && Fits(Product(round, p, a))
    ensures 0 <= Trunc(Product(round, p, a).v) <= Trunc(Product(round, p, b).v)
  {
    RoundsGrow(round, p, a, b);
    ProductGrows(round, p, a, b);
    TruncGrows(Product(round, p, a).v, Product(round, p, b).v);
  }

  // ---- Delays ----

  /** Delays never shrink from one attempt to a later one, as long as the later product fits a
      64-bit duration. */
  lemma DelayGrows(round: real -> Float, p: Policy, a: nat, b: nat)
    requires IsRounding(round) && Growing(p) && a <= b && Countable(round, b) && Fits(Product(round, p, b))
    ensures 0 <= Delay(round, p, a) <= Delay(round, p, b)
  {
    FitsBefore(round, p, a, b);
  }

  /** The delay that a conversion without limits would give: an infinite product is capped, a negative
      infinite one is below every duration, and zero times infinity stays zero. */
  function Capped(round: real -> Float, p: Policy, attempt: nat): int {
    match Product(round, p, attempt)
    case Num(v) => Min(Trunc(v), p.cap)
    case PosInf => p.cap
    case NegInf => INT64_MIN - 1
    case NaN => 0
  }

  lemma DelayIsCappedIffFits(round: real -> Float, p: Policy, attempt: nat)
    requires p.cap >= 0 && p.outOfRange == INT64_MIN
    ensures Delay(round, p, attempt) == Capped(round, p, attempt) <==> Fits(Product(round, p, attempt))
  {
  }

  /** None of the numbers on the way to the product of attempt `n` needs rounding. */
  ghost predicate NothingRounded(round: real -> Float, p: Policy, n: nat) {
    && p.multiplier.Num? && n < MANTISSA && 0 <= p.initial < MANTISSA
    && (forall k | 0 < k <= n :: round(RealPower(p.multiplier.v, k)) == Num(RealPower(p.multiplier.v, k)))
    && round(Exact(p, n)) == Num(Exact(p, n))
  }

  /** The exponential as real numbers give it. */
  function Exact(p: Policy, n: nat): real
    requires p.multiplier.Num?
  {
    Times(p.initial as real, RealPower(p.multiplier.v, n))
  }

  lemma ProductIsExact(round: real -> Float, p: Policy, n: nat)
    requires IsRounding(round) && NothingRounded(round, p, n)
    ensures Product(round, p, n) == Num(Exact(p, n))
  {
    SmallRounds(round, p, n);
    SmallIntIsExact(round, p.initial);
    PowIsPower(round, p.multiplier.v, n);
  }

  /** Main result. As long as nothing needs rounding, the delay is the documented one, the initial backoff times
      the mathematical power, capped, if and only if that exponential fits a 64-bit duration. */
  lemma DelayIsExponentialIff(round: real -> Float, p: Policy, n: nat)
    requires IsRounding(round) && NothingRounded(round, p, n) && p.cap >= 0 && p.outOfRange == INT64_MIN
    ensures Delay(round, p, n) == Min(Trunc(Exact(p, n)), p.cap) <==> Fits(Num(Exact(p, n)))
  {
    ProductIsExact(round, p, n);
  }

  ghost predicate NeverShrink(round: real -> Float, p: Policy, n: nat) {
    forall a: nat, b: nat | a <= b <= n :: Delay(round, p, a) <= Delay(round, p, b)
  }

  lemma FittingNeverShrinks(round: real -> Float, p: Policy, n: nat)
    requires IsRounding(round) && Growing(p) && Countable(round, n) && Fits(Product(round, p, n))
    ensures NeverShrink(round, p, n)
  {
    forall a: nat, b: nat | a <= b <= n
      ensures Delay(round, p, a) <= Delay(round, p, b)
    {
      FitsBefore(round, p, b, n);
      DelayGrows(round, p, a, b);
    }
  }

  lemma NotFittingIsConstant(round: real -> Float, p: Policy, n: nat)
    requires IsRounding(round) && Growing(p) && Countable(round, n) && !Fits(Product(round, p, 0))
    ensures NeverShrink(round, p, n)
  {
    forall a: nat | a <= n
      ensures Delay(round, p, a) == INT64_MIN
    {
      RoundsGrow(round, p, a, n);
      if Fits(Product(round, p, a)) {
        FitsBefore(round, p, 0, a);
      }
    }
  }

  /** For every schedule that should grow, the delays of attempts `0..n` are non-decreasing if and
      only if the last product fits a 64-bit duration, or not even the first one does. */
  lemma DelaysGrowIff(round: real -> Float, p: Policy, n: nat)
    requires IsRounding(round) && Growing(p) && Countable(round, n)
    ensures NeverShrink(round, p, n) <==> Fits(Product(round, p, n)) || !Fits(Product(round, p, 0))
  {
    if Fits(Product(round, p, n)) {
      FittingNeverShrinks(round, p, n);
    } else if Fits(Product(round, p, 0)) {
      RoundsGrow(round, p, 0, n);
      DelayGrows(round, p, 0, 0);
      assert Delay(round, p, 0) > Delay(round, p, n);
    } else {
      NotFittingIsConstant(round, p, n);
    }
  }

  // ---- The default options ----

  /** Powers of two are exact. */
  lemma {:induction false} PowerOfTwo(round: real -> Float, n: nat)
    requires IsRounding(round) && n < 1024
    ensures Power(round, Num(2.0), n) == Num(Pow2(n))
  {
    if n == 0 {
    } else {
      PowerOfTwo(round, n - 1);
      Pow2Doubles(n - 1);
      var m, e := Pow2IsExact(n);
      assert IsExact(Pow2(n), m, e);
    }
  }

  lemma ExactProduct(round: real -> Float, i: int, n: nat)
    requires IsRounding(round) && 0 <= i < MANTISSA && n <= MAX_EXP
    ensures round(Times(i as real, Pow2(n))) == Num(Times(i as real, Pow2(n)))
  {
    assert IsExact(Times(i as real, Pow2(n)), i, n);
  }

  lemma NextPowerOfTwo(round: real -> Float, n: nat)
    requires Power(round, Num(2.0), n) == Num(Pow2(n))
    ensures Power(round, Num(2.0), n + 1) == round(Pow2(n + 1))
  {
    Pow2Doubles(n);
    MulIs(round, Pow2(n), 2.0, Pow2(n + 1));
  }

  lemma SmallRounds(round: real -> Float, p: Policy, n: nat)
    requires IsRounding(round) && n < MANTISSA
    ensures Countable(round, n) && Rounds(round, p, n) == n
  {
    SmallIntIsExact(round, n);
  }

  /** Products of a doubling backoff are exact. */
  lemma DoublingProduct(round: real -> Float, p: Policy, n: nat)
    requires IsRounding(round) && n <= MAX_EXP && p.multiplier == Num(2.0) && 0 <= p.initial < MANTISSA
    ensures Countable(round, n) && Product(round, p, n) == Num(Times(p.initial as real, Pow2(n)))
  {
    SmallRounds(round, p, n);
    SmallIntIsExact(round, p.initial);
    PowerOfTwo(round, n);
    ExactProduct(round, p.initial, n);
  }

  lemma SmallPowers()
    ensures Pow2(0) == 1.0 && Pow2(1) == 2.0 && Pow2(2) == 4.0 && Pow2(3) == 8.0 && Pow2(4) == 16.0 && Pow2(5) == 32.0
    ensures Pow2(34) == 17179869184.0 && Pow2(35) == 34359738368.0
  {
    assert Pow2(3) == 8.0;
    Pow2Doubles(3);
    Pow2Doubles(4);
    Pow2Adds(4, 4);
    Pow2Adds(8, 8);
    Pow2Adds(16, 16);
    Pow2Adds(32, 2);
    Pow2Doubles(34);
  }

  lemma LastFits(round: real -> Float)
    requires IsRounding(round)
    ensures Countable(round, 34) && Fits(Product(round, DEFAULTS, 34)) && !Fits(Product(round, DEFAULTS, 35))
  {
    SmallPowers();
    DoublingProduct(round, DEFAULTS, 34);
    DoublingProduct(round, DEFAULTS, 35);
  }

  /** With the default options the uncapped product fits exactly up to attempt 34. */
  lemma DefaultsFitIff(round: real -> Float, attempt: nat)
    requires IsRounding(round) && Countable(round, attempt)
    ensures Fits(Product(round, DEFAULTS, attempt)) <==> attempt <= 34
  {
    LastFits(round);
    if attempt <= 34 {
      FitsBefore(round, DEFAULTS, attempt, 34);
    } else if Fits(Product(round, DEFAULTS, attempt)) {
      FitsBefore(round, DEFAULTS, 35, attempt);
      assert false;
    }
  }

  const FIRST_DELAYS: seq<int> := [500, 1000, 2000, 4000, 8000]

  lemma FirstProducts(attempt: nat)
    requires attempt < 5
    ensures Times(DEFAULTS.initial as real, Pow2(attempt)) == (FIRST_DELAYS[attempt] * MILLISECOND) as real
  {
    SmallPowers();
  }

  lemma FirstDelays(round: real -> Float, attempt: nat)
    requires IsRounding(round) && attempt < 5
    ensures Delay(round, DEFAULTS, attempt) == FIRST_DELAYS[attempt] * MILLISECOND
  {
    FirstProducts(attempt);
    DoublingProduct(round, DEFAULTS, attempt);
  }

  lemma CappedDelays(round: real -> Float, attempt: nat)
    requires IsRounding(round) && 5 <= attempt <= 34 && Countable(round, attempt)
    ensures Delay(round, DEFAULTS, attempt) == 10 * SECOND
  {
    SmallPowers();
    DefaultsFitIff(round, attempt);
    DoublingProduct(round, DEFAULTS, 5);
    FitsBefore(round, DEFAULTS, 5, attempt);
  }

  /** The default schedule is 0.5, 1, 2, 4, 8 seconds and then the ten-second cap, up to
      attempt 34; attempt 35 is the first to leave it. */
  lemma DefaultSchedule(round: real -> Float, attempt: nat)
    requires IsRounding(round) && Countable(round, attempt)
    ensures attempt < 5 ==> Delay(round, DEFAULTS, attempt) == FIRST_DELAYS[attempt] * MILLISECOND
    ensures 5 <= attempt <= 34 ==> Delay(round, DEFAULTS, attempt) == 10 * SECOND
    ensures attempt >= 35 ==> Delay(round, DEFAULTS, attempt) == INT64_MIN
  {
    if attempt < 5 {
      FirstDelays(round, attempt);
    } else if attempt <= 34 {
      CappedDelays(round, attempt);
    } else {
      DefaultsFitIff(round, attempt);
    }
  }

  // ---- Where the schedule breaks ----

  /** A backoff that starts at zero stays there only while the power is finite: zero times infinity is
      not a number, and its conversion is negative. */
  lemma ZeroMeetsInfinity(round: real -> Float, p: Policy, attempt: nat)
    requires IsRounding(round) && Growing(p) && p.initial == 0 && Countable(round, attempt)
    ensures Delay(round, p, attempt)
         == if Power(round, p.multiplier, Rounds(round, p, attempt)).PosInf? then INT64_MIN else 0
  {
    InitialIsNum(round, 0);
    SmallIntIsExact(round, 0);
    PowerIsRounded(round, p.multiplier, Rounds(round, p, attempt));
  }

  /** The first delay is the initial backoff, capped, unless that is so large that it is rounded out of
      range. */
  lemma FirstFitsIff(round: real -> Float, p: Policy)
    requires IsRounding(round) && Growing(p)
    ensures FromInt(round, p.initial).Num?
    ensures Fits(Product(round, p, 0)) <==> FromInt(round, p.initial).v < INT64_LIMIT as real
  {
    SmallIntIsExact(round, 0);
    InitialIsNum(round, p.initial);
    assert Rounds(round, p, 0) == 0;
    assert Times(FromInt(round, p.initial).v, 1.0) == FromInt(round, p.initial).v;
    assert Rounded(round, FromInt(round, p.initial));
  }
}
