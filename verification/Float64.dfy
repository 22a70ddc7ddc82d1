/** Binary floating point as Go's `float64` on amd64: every operation rounds its exact result to the
    nearest representable number, ties to even, and overflows to an infinity. The two zeros are one
    here, as nothing modelled tells them apart. */
module Float64 {
  import opened Prelude

  datatype Float = Num(v: real) | PosInf | NegInf | NaN

  const INT64_MIN: int := -0x8000_0000_0000_0000
  const INT64_LIMIT: int := 0x8000_0000_0000_0000
  const MANTISSA: int := 0x20_0000_0000_0000
  const HALF: int := 0x10_0000_0000_0000

  /** The exponents of the unit in the last place. */
  const MIN_EXP: int := -1074
  const MAX_EXP: int := 971

  function Pow2(k: int): real
    decreases if k >= 0 then k else -k
  {
    if k == 0 then 1.0 else if k > 0 then 2.0 * Pow2(k - 1) else Pow2(k + 1) / 2.0
  }

  function NearestEven(x: real): int {
    var down := x.Floor;
    var rest := x - down as real;
    if rest < 0.5 || (rest == 0.5 && down % 2 == 0) then down else down + 1
  }

  /** The smallest exponent, from `e` on, at which `x` has no more than 53 binary digits before the
      point; the largest there is, if none is enough. */
  function UlpExp(x: real, e: int): (r: int)
    requires MIN_EXP <= e <= MAX_EXP
    ensures e <= r <= MAX_EXP
    ensures r < MAX_EXP ==> x < Pow2(r + 53)
    ensures r > e ==> x >= Pow2(r + 52)
    decreases MAX_EXP - e
  {
    if e == MAX_EXP || x < Pow2(e + 53) then e else UlpExp(x, e + 1)
  }

  /** `x` times `2^k`. */
  function Shift(x: real, k: int): real
    decreases if k >= 0 then k else -k
  {
    if k == 0 then x else if k > 0 then Shift(2.0 * x, k - 1) else Shift(x / 2.0, k + 1)
  }

  function Scaled(x: real, e: int): real {
    Shift(x, -e)
  }

  /** `x` rounded to a multiple of `2^e`. */
  function AtExp(x: real, e: int): real {
    Shift(NearestEven(Scaled(x, e)) as real, e)
  }

  /** Rounding of a number that is not negative. */
  function RoundPositive(x: real): Float
    requires x >= 0.0
  {
    var r := AtExp(x, UlpExp(x, MIN_EXP));
    if r < Pow2(1024) then Num(r) else PosInf
  }

  function Negate(f: Float): Float {
    match f
    case Num(v) => Num(-v)
    case PosInf => NegInf
    case NegInf => PosInf
    case NaN => NaN
  }

  function Round(x: real): Float {
    if x >= 0.0 then RoundPositive(x) else Negate(RoundPositive(-x))
  }

  function Sign(f: Float): int {
    match f
    case Num(v) => if v > 0.0 then 1 else if v < 0.0 then -1 else 0
    case PosInf => 1
    case NegInf => -1
    case NaN => 0
  }

  function Times(x: real, y: real): real {
    x * y
  }

  /** The product, rounded by `round`. */
  function Mul(round: real -> Float, a: Float, b: Float): Float {
    if a.Num? && b.Num? then round(Times(a.v, b.v))
    else if a.NaN? || b.NaN? || Sign(a) == 0 || Sign(b) == 0 then NaN
    else if Sign(a) == Sign(b) then PosInf
    else NegInf
  }

  /** The conversion to an integer discards the fraction. */
  function Trunc(x: real): int {
    if x >= 0.0 then x.Floor else -(-x).Floor
  }

  predicate Fits(f: Float) {
    f.Num? && INT64_MIN <= Trunc(f.v) < INT64_LIMIT
  }

  /** Go leaves the result to the platform when the operand is no 64-bit integer. */
  function ToInt64(f: Float, outOfRange: int): int {
    if Fits(f) then Trunc(f.v) else outOfRange
  }

  /** The order of numbers that are not negative, infinity included. */
  predicate Le(a: Float, b: Float) {
    (a.Num? && b.Num? && a.v <= b.v) || (b.PosInf? && (a.Num? || a.PosInf?))
  }

  // ---- Powers of two ----

  lemma {:induction false} Pow2Positive(k: int)
    ensures Pow2(k) > 0.0
    decreases if k >= 0 then k else -k
  {
    if k == 0 {
    } else if k > 0 {
      Pow2Positive(k - 1);
    } else {
      Pow2Positive(k + 1);
    }
  }

  lemma Pow2Doubles(k: int)
    ensures Pow2(k + 1) == 2.0 * Pow2(k)
  {
  }

  lemma Doubling(x: real, x2: real, a: real, b: real, b2: real)
    requires x2 == 2.0 * x && b2 == 2.0 * b
    ensures x == a * b <==> x2 == a * b2
  {
    assert a * b2 == 2.0 * (a * b);
  }

  lemma {:induction false} Pow2Adds(j: int, k: nat)
    ensures Pow2(j + k) == Pow2(j) * Pow2(k)
  {
    if k == 0 {
    } else {
      Pow2Adds(j, k - 1);
      Pow2Doubles(j + (k - 1));
      Pow2Doubles(k - 1);
      Doubling(Pow2(j + (k - 1)), Pow2(j + k), Pow2(j), Pow2(k - 1), Pow2(k));
    }
  }

  lemma Pow2Inverse(k: int)
    ensures Pow2(k) * Pow2(-k) == 1.0
  {
    if k >= 0 {
      Pow2Adds(-k, k);
      assert Pow2(-k + k) == 1.0;
    } else {
      Pow2Adds(k, -k);
      assert Pow2(k + -k) == 1.0;
    }
  }

  lemma {:induction false} Pow2Grows(j: int, k: int)
    requires j <= k
    ensures 0.0 < Pow2(j) <= Pow2(k)
    decreases k - j
  {
    Pow2Positive(j);
    if j == k {
    } else {
      Pow2Grows(j, k - 1);
      Pow2Doubles(k - 1);
    }
  }

  /** The powers of two that are written as numbers here. */
  lemma Pow2Values()
    ensures Pow2(52) == HALF as real && Pow2(53) == MANTISSA as real && Pow2(63) == INT64_LIMIT as real
  {
    assert Pow2(4) == 16.0;
    Pow2Adds(4, 4);
    Pow2Adds(8, 8);
    Pow2Adds(16, 16);
    Pow2Adds(32, 16);
    Pow2Adds(48, 4);
    Pow2Doubles(52);
    Pow2Adds(53, 8);
    Pow2Doubles(61);
    Pow2Doubles(62);
  }

  // ---- Rounding ----

  lemma NearestGrows(x: real, y: real)
    requires x <= y
    ensures NearestEven(x) <= NearestEven(y)
  {
  }

  lemma NearestOfInt(i: int)
    ensures NearestEven(i as real) == i
  {
  }

  lemma {:induction false} ShiftIs(x: real, k: int)
    ensures Shift(x, k) == x * Pow2(k)
    decreases if k >= 0 then k else -k
  {
    if k == 0 {
    } else if k > 0 {
      ShiftIs(2.0 * x, k - 1);
      Pow2Doubles(k - 1);
      Move(x, Pow2(k - 1));
    } else {
      ShiftIs(x / 2.0, k + 1);
      Pow2Doubles(k);
      Move(x / 2.0, Pow2(k));
    }
  }

  lemma Move(x: real, y: real)
    ensures (2.0 * x) * y == x * (2.0 * y)
  {
  }

  lemma Associate(a: real, b: real, c: real)
    ensures (a * b) * c == a * (b * c)
  {
  }

  lemma ProductGrows(x: real, y: real, c: real)
    requires x <= y && c >= 0.0
    ensures x * c <= y * c
  {
  }

  lemma ShiftGrows(x: real, y: real, k: int)
    requires x <= y
    ensures Shift(x, k) <= Shift(y, k)
  {
    ShiftIs(x, k);
    ShiftIs(y, k);
    Pow2Positive(k);
    ProductGrows(x, y, Pow2(k));
  }

  lemma AtExpGrows(x: real, y: real, e: int)
    requires x <= y
    ensures AtExp(x, e) <= AtExp(y, e)
  {
    ShiftGrows(x, y, -e);
    NearestGrows(Scaled(x, e), Scaled(y, e));
    ShiftGrows(NearestEven(Scaled(x, e)) as real, NearestEven(Scaled(y, e)) as real, e);
  }

  lemma ScaledOfMultiple(x: real, m: int, e: int)
    requires x == m as real * Pow2(e)
    ensures Scaled(x, e) == m as real
  {
    Pow2Inverse(e);
    ShiftIs(x, -e);
    Unscale(x, m as real, Pow2(e), Pow2(-e), Shift(x, -e));
  }

  lemma NearestAt(y: real, m: int)
    requires y == m as real
    ensures NearestEven(y) == m
  {
  }

  lemma AtExpFrom(x: real, m: int, e: int)
    requires Scaled(x, e) == m as real
    ensures AtExp(x, e) == Shift(m as real, e)
  {
    NearestAt(Scaled(x, e), m);
  }

  /** Multiples of the unit round to themselves. */
  lemma AtExpOfMultiple(x: real, m: int, e: int)
    requires x == m as real * Pow2(e)
    ensures AtExp(x, e) == x
  {
    ScaledOfMultiple(x, m, e);
    AtExpFrom(x, m, e);
    ShiftIs(m as real, e);
  }

  lemma Unscale(x: real, a: real, b: real, c: real, y: real)
    requires x == a * b && b * c == 1.0 && y == x * c
    ensures y == a
  {
    Associate(a, b, c);
  }

  /** What lies at or below a power of two with 53 or fewer digits stays there when rounded, and what lies at
      or above one does too. */
  lemma AtExpOfPow2(e: int, d: nat)
    requires d <= 53
    ensures AtExp(Pow2(e + d), e) == Pow2(e + d)
  {
    var m := IntPow2(d);
    Pow2Adds(e, d);
    AtExpOfMultiple(Pow2(e + d), m, e);
  }

  lemma {:induction false} IntPow2(d: nat) returns (m: nat)
    ensures m as real == Pow2(d)
  {
    if d == 0 {
      m := 1;
    } else {
      m := IntPow2(d - 1);
      m := 2 * m;
    }
  }

  lemma {:induction false} UlpExpGrows(x: real, y: real, e: int)
    requires x <= y && MIN_EXP <= e <= MAX_EXP
    ensures UlpExp(x, e) <= UlpExp(y, e)
    decreases MAX_EXP - e
  {
    if e == MAX_EXP || x < Pow2(e + 53) {
    } else {
      UlpExpGrows(x, y, e + 1);
    }
  }

  /** Rounding is monotone. */
  lemma RoundGrows(x: real, y: real)
    requires 0.0 <= x <= y
    ensures Le(Round(x), Round(y))
  {
    var d, e := UlpExp(x, MIN_EXP), UlpExp(y, MIN_EXP);
    UlpExpGrows(x, y, MIN_EXP);
    if d == e {
      AtExpGrows(x, y, e);
    } else {
      AtExpGrows(x, Pow2(d + 53), d);
      AtExpOfPow2(d, 53);
      Pow2Grows(d + 53, e + 52);
      AtExpOfPow2(e, 52);
      AtExpGrows(Pow2(e + 52), y, e);
    }
  }

  /** A number with 53 binary digits is exact. */
  predicate IsExact(x: real, m: int, e: int) {
    0 <= m < MANTISSA && MIN_EXP <= e <= MAX_EXP && x == m as real * Pow2(e)
  }

  lemma ExactIsSmall(x: real, m: int, e: int)
    requires IsExact(x, m, e)
    ensures 0.0 <= x < Pow2(e + 53) && x < Pow2(1024)
  {
    Pow2Values();
    Pow2Positive(e);
    Pow2Adds(e, 53);
    SmallerProducts(x, m as real, Pow2(53), Pow2(e), Pow2(e + 53));
    Pow2Grows(e + 53, 1024);
  }

  lemma SmallerProducts(x: real, m: real, a: real, p: real, y: real)
    requires x == m * p && y == p * a && 0.0 <= m < a && p > 0.0
    ensures 0.0 <= x < y
  {
  }

  lemma Smaller(a: real, b: real, c: real)
    requires 0.0 <= a < b && c > 0.0
    ensures 0.0 <= a * c < b * c
  {
  }

  lemma {:induction false} UlpExpAtMost(x: real, e: int, top: int)
    requires MIN_EXP <= e <= top <= MAX_EXP && x < Pow2(top + 53)
    ensures UlpExp(x, e) <= top
    decreases top - e
  {
    if e == MAX_EXP || x < Pow2(e + 53) {
    } else {
      UlpExpAtMost(x, e + 1, top);
    }
  }

  /** Exact numbers round to themselves. */
  lemma RoundOfExact(x: real, m: int, e: int)
    requires IsExact(x, m, e)
    ensures Round(x) == Num(x)
  {
    ExactIsSmall(x, m, e);
    UlpExpAtMost(x, MIN_EXP, e);
    MultipleBelow(x, m, e, UlpExp(x, MIN_EXP));
  }

  /** A multiple of a unit is one of every smaller unit. */
  lemma MultipleBelow(x: real, m: int, e: int, d: int)
    requires x == m as real * Pow2(e) && d <= e
    ensures AtExp(x, d) == x
  {
    var up := FinerUnits(d, e);
    var n := RefineTimes(x, m, up, Pow2(d), Pow2(e));
    AtExpOfMultiple(x, n, d);
  }

  lemma Refine(x: real, m: int, up: int, unit: real, coarse: real) returns (n: int)
    requires x == m as real * coarse && coarse == unit * up as real
    ensures x == n as real * unit
  {
    n := m * up;
    assert n as real == m as real * up as real;
    Associate(m as real, up as real, unit);
  }

  lemma FinerUnits(d: int, e: int) returns (up: int)
    requires d <= e
    ensures Pow2(e) == Times(Pow2(d), up as real)
  {
    up := IntPow2(e - d);
    Pow2Adds(d, e - d);
  }

  lemma RefineTimes(y: real, m: int, up: int, unit: real, coarse: real) returns (n: int)
    requires y == Times(m as real, coarse) && coarse == Times(unit, up as real)
    ensures y == Times(n as real, unit)
  {
    n := Refine(y, m, up, unit, coarse);
  }

  lemma NearestNotNegative(x: real, e: int)
    requires x >= 0.0
    ensures NearestEven(Scaled(x, e)) >= 0
  {
    ShiftGrows(0.0, x, -e);
    ShiftIs(0.0, -e);
    NearestOfInt(0);
    NearestGrows(0.0, Scaled(x, e));
  }

  lemma RoundedAtMost(x: real)
    requires x >= 0.0 && AtExp(x, UlpExp(x, MIN_EXP)) < Pow2(1024)
    ensures AtExp(x, UlpExp(x, MIN_EXP)) <= Pow2(UlpExp(x, MIN_EXP) + 53)
  {
    var e := UlpExp(x, MIN_EXP);
    if e < MAX_EXP {
      AtExpGrows(x, Pow2(e + 53), e);
      AtExpOfPow2(e, 53);
    }
  }

  lemma MultipleIsExact(n: int, d: int, r: real) returns (m: int, e: int)
    requires 0 <= n && MIN_EXP <= d <= MAX_EXP && r == n as real * Pow2(d)
    requires r <= Pow2(d + 53) && r < Pow2(1024)
    ensures IsExact(r, m, e)
  {
    AtMostMantissa(n, d, r);
    if n == MANTISSA {
      m, e := HALF, d + 1;
    } else {
      m, e := n, d;
    }
  }

  lemma AtExpIsMultiple(x: real, e: int) returns (n: int, r: real)
    requires x >= 0.0
    ensures 0 <= n && r == n as real * Pow2(e) && r == AtExp(x, e)
  {
    n := NearestEven(Scaled(x, e));
    r := n as real * Pow2(e);
    NearestNotNegative(x, e);
    ShiftIs(n as real, e);
  }

  lemma RoundIsAtExp(x: real, r: real)
    requires x >= 0.0 && Round(x).Num? && r == AtExp(x, UlpExp(x, MIN_EXP))
    ensures Round(x) == Num(r) && r < Pow2(1024)
  {
  }

  /** The result of a rounding is exact. */
  lemma RoundIsExact(x: real) returns (m: int, e: int)
    requires x >= 0.0 && Round(x).Num?
    ensures IsExact(Round(x).v, m, e)
  {
    var d := UlpExp(x, MIN_EXP);
    var n, r := AtExpIsMultiple(x, d);
    RoundIsAtExp(x, r);
    RoundedAtMost(x);
    m, e := MultipleIsExact(n, d, r);
  }

  lemma AtMostMantissa(m: int, e: int, r: real)
    requires 0 <= m && MIN_EXP <= e <= MAX_EXP && r == m as real * Pow2(e)
    requires r <= Pow2(e + 53) && r < Pow2(1024)
    ensures m <= MANTISSA
    ensures m == MANTISSA ==> e < MAX_EXP && r == HALF as real * Pow2(e + 1)
  {
    Pow2Values();
    Pow2Positive(e);
    Pow2Adds(e, 53);
    if m > MANTISSA {
      Smaller(Pow2(53), m as real, Pow2(e));
    }
    if m == MANTISSA {
      Pow2Doubles(e);
      assert HALF as real * (2.0 * Pow2(e)) == MANTISSA as real * Pow2(e);
    }
  }

  /** Rounding twice is rounding once. */
  lemma RoundTwice(x: real)
    requires x >= 0.0 && Round(x).Num?
    ensures Round(x).v >= 0.0 && Round(Round(x).v) == Round(x)
  {
    var m, e := RoundIsExact(x);
    ExactIsSmall(Round(x).v, m, e);
    RoundOfExact(Round(x).v, m, e);
  }

  lemma Pow2IsExact(n: nat) returns (m: int, e: int)
    requires n < 1024
    ensures IsExact(Pow2(n), m, e)
  {
    if n <= MAX_EXP {
      m, e := 1, n;
    } else {
      m := IntPow2(n - MAX_EXP);
      e := MAX_EXP;
      Pow2Adds(MAX_EXP, n - MAX_EXP);
      Pow2Values();
      Pow2Grows(n - MAX_EXP, 52);
    }
  }

  /** The smallest power of two that is infinite. */
  lemma Overflow()
    ensures Round(Pow2(1024)) == PosInf
  {
    var x := Pow2(1024);
    Pow2Positive(1024);
    if UlpExp(x, MIN_EXP) < MAX_EXP {
      Pow2Grows(UlpExp(x, MIN_EXP) + 53, 1024);
    }
    AtExpOfPow2(MAX_EXP, 53);
  }

  /** The largest 64-bit integer is rounded up, out of the range of 64-bit integers. */
  lemma LargestInt()
    ensures Round((INT64_LIMIT - 1) as real) == Num(INT64_LIMIT as real)
  {
    var x := (INT64_LIMIT - 1) as real;
    Pow2Values();
    LargestUlp(x);
    LargestScaled(x);
    ShiftIs(MANTISSA as real, 10);
    Pow2Adds(53, 10);
    Pow2Grows(63, 1023);
    Pow2Grows(1023, 1024);
    Pow2Doubles(1023);
  }

  lemma LargestUlp(x: real)
    requires x == (INT64_LIMIT - 1) as real
    ensures UlpExp(x, MIN_EXP) == 10
  {
    Pow2Values();
    Pow2Doubles(62);
    UlpExpAtMost(x, MIN_EXP, 10);
    if UlpExp(x, MIN_EXP) < 10 {
      Pow2Grows(UlpExp(x, MIN_EXP) + 53, 62);
    }
  }

  lemma LargestScaled(x: real)
    requires x == (INT64_LIMIT - 1) as real
    ensures NearestEven(Scaled(x, 10)) == MANTISSA
  {
    ShiftIs(x, -10);
    Pow2Adds(-10, 10);
    assert Pow2(-10 + 10) == 1.0;
    assert Pow2(5) == 32.0;
    Pow2Adds(5, 5);
    assert Pow2(-10) == 1.0 / 1024.0;
    assert Scaled(x, 10) == MANTISSA as real - 1.0 / 1024.0;
  }

  // ---- To nearest, ties to even ----

  function Abs(x: real): real {
    if x < 0.0 then -x else x
  }

  /** No integer is nearer, and of two that are equally near the even one is chosen. */
  lemma NearestIsNearest(x: real, n: int)
    ensures Abs(NearestEven(x) as real - x) <= Abs(n as real - x)
    ensures Abs(NearestEven(x) as real - x) <= 0.5
    ensures NearestEven(x) != n && Abs(NearestEven(x) as real - x) == Abs(n as real - x) ==> NearestEven(x) % 2 == 0
  {
  }

  lemma Distances(a: real, b: real, z: real, p: real, x: real)
    requires p > 0.0 && x == Times(z, p) && Abs(a - z) <= Abs(b - z)
    ensures Abs(Times(a, p) - x) <= Abs(Times(b, p) - x)
  {
    Distance(a, z, p);
    Distance(b, z, p);
    TimesGrows(Abs(a - z), Abs(b - z), p);
  }

  lemma TimesGrows(x: real, y: real, c: real)
    requires x <= y && c >= 0.0
    ensures Times(x, c) <= Times(y, c)
  {
    ProductGrows(x, y, c);
  }

  lemma Distance(a: real, x: real, p: real)
    requires p > 0.0
    ensures Abs(Times(a, p) - Times(x, p)) == Times(Abs(a - x), p)
  {
    assert a * p - x * p == (a - x) * p;
    if a < x {
      Smaller(0.0, x - a, p);
      assert (x - a) * p == -((a - x) * p);
    } else {
      ProductGrows(0.0, a - x, p);
    }
  }

  lemma ByOne(x: real, z: real, q: real, p: real)
    requires z == Times(x, q) && Times(p, q) == 1.0
    ensures x == Times(z, p)
  {
    var one := q * p;
    Associate(x, q, p);
    assert one == 1.0 && x * one == x;
  }

  lemma RescaleTimes(x: real, z: real, a: real, b: real, p: real, q: real)
    requires p > 0.0 && z == Times(x, q) && Times(p, q) == 1.0 && Abs(a - z) <= Abs(b - z)
    ensures Abs(Times(a, p) - x) <= Abs(Times(b, p) - x)
  {
    ByOne(x, z, q, p);
    Distances(a, b, z, p, x);
  }

  /** Rounding to a multiple of a unit, by the unit and its inverse. */
  lemma AtExpParts(x: real, e: int, p: real) returns (z: real, q: real)
    requires p == Pow2(e)
    ensures p > 0.0 && Times(p, q) == 1.0 && z == Times(x, q)
    ensures z == Scaled(x, e)
  {
    q, z := Pow2(-e), Scaled(x, e);
    Pow2Positive(e);
    Pow2Inverse(e);
    ShiftIs(x, -e);
  }

  lemma AtExpIsProduct(x: real, e: int)
    ensures AtExp(x, e) == Times(NearestEven(Scaled(x, e)) as real, Pow2(e))
  {
    ShiftIs(NearestEven(Scaled(x, e)) as real, e);
  }

  /** Among the multiples of a unit, the rounded one is nearest. */
  lemma AtExpIsNearest(x: real, e: int, unit: real, y: real, n: int)
    requires unit == Pow2(e) && y == Times(n as real, unit)
    ensures Abs(AtExp(x, e) - x) <= Abs(y - x)
  {
    var z, q := AtExpParts(x, e, unit);
    NearestIsNearest(z, n);
    AtExpIsProduct(x, e);
    RescaleTimes(x, z, NearestEven(z) as real, n as real, unit, q);
  }

  lemma Nearer(a: real, b: real, x: real)
    requires a <= b <= x
    ensures Abs(b - x) <= Abs(a - x)
  {
  }

  lemma CoarseIsMultiple(y: real, m: int, e: int, d: int) returns (n: int)
    requires MIN_EXP <= d <= e && IsExact(y, m, e)
    ensures y == Times(n as real, Pow2(d))
  {
    var up := FinerUnits(d, e);
    n := RefineTimes(y, m, up, Pow2(d), Pow2(e));
  }

  lemma CoarserIsFurther(x: real, y: real, m: int, e: int, d: int)
    requires MIN_EXP <= d <= e && IsExact(y, m, e)
    ensures Abs(AtExp(x, d) - x) <= Abs(y - x)
  {
    var n := CoarseIsMultiple(y, m, e, d);
    AtExpIsNearest(x, d, Pow2(d), y, n);
  }

  lemma FinerIsFurther(x: real, y: real, power: real, d: int)
    requires y <= power <= x && power == Pow2(d + 52)
    ensures Abs(AtExp(x, d) - x) <= Abs(y - x)
  {
    var n := IntPow2(52);
    Pow2Adds(d, 52);
    AtExpIsNearest(x, d, Pow2(d), power, n);
    Nearer(y, power, x);
  }

  lemma ExactIsBelow(y: real, m: int, e: int, d: int)
    requires IsExact(y, m, e) && e < d
    ensures y <= Pow2(d + 52)
  {
    ExactIsSmall(y, m, e);
    Pow2Grows(e + 53, d + 52);
  }

  /** Main result. Of all numbers with 53 binary digits, the rounded one is nearest. */
  lemma RoundIsNearest(x: real, y: real, m: int, e: int)
    requires x >= 0.0 && Round(x).Num? && IsExact(y, m, e)
    ensures Abs(Round(x).v - x) <= Abs(y - x)
  {
    var d := UlpExp(x, MIN_EXP);
    if e >= d {
      CoarserIsFurther(x, y, m, e, d);
    } else {
      ExactIsBelow(y, m, e, d);
      FinerIsFurther(x, y, Pow2(d + 52), d);
    }
  }

  /** Conversion yields the integer next to the number on the side of zero, if that is a 64-bit integer. */
  lemma ConversionTruncates(v: real, outOfRange: int)
    ensures Fits(Num(v)) <==> INT64_MIN as real - 1.0 < v < INT64_LIMIT as real
    ensures var i := ToInt64(Num(v), outOfRange);
      if !Fits(Num(v)) then i == outOfRange
      else if v >= 0.0 then i as real <= v < i as real + 1.0
      else i as real - 1.0 < v <= i as real
    ensures INT64_MIN == -9223372036854775808 && INT64_LIMIT == 9223372036854775808
    ensures !Fits(PosInf) && !Fits(NegInf) && !Fits(NaN)
  {
  }

  // ---- What is needed of a rounding ----

  /** It is monotone, leaves its own results alone, and leaves exact numbers alone. */
  ghost predicate IsRounding(round: real -> Float) {
    && (forall x, y | 0.0 <= x <= y :: Le(round(x), round(y)))
    && (forall x | 0.0 <= x && round(x).Num? :: round(x).v >= 0.0 && round(round(x).v) == round(x))
    && (forall x, m, e | IsExact(x, m, e) :: round(x) == Num(x))
  }

  /** Rounding to nearest, as `float64` does, is one. */
  lemma RoundIsRounding()
    ensures IsRounding(Round)
  {
    forall x: real, y: real | 0.0 <= x <= y
      ensures Le(Round(x), Round(y))
    {
      RoundGrows(x, y);
    }
    forall x: real | 0.0 <= x && Round(x).Num?
      ensures Round(x).v >= 0.0 && Round(Round(x).v) == Round(x)
    {
      RoundTwice(x);
    }
    forall x: real, m: int, e: int | IsExact(x, m, e)
      ensures Round(x) == Num(x)
    {
      RoundOfExact(x, m, e);
    }
  }
}
