/**
 * The parts of Kotlin's numeric semantics the model depends on: Double.toInt
 * (truncation toward zero, saturating at the Int range), Long.toInt (keeps the
 * low 32 bits) and coerceIn / coerceAtLeast.
 */
module KotlinNumbers {

  const INT_MIN: int := -0x8000_0000
  const INT_MAX: int := 0x7FFF_FFFF

  /** Real-to-integer truncation toward zero. */
  function Trunc(x: real): (r: int)
    ensures x >= 0.0 ==> r as real <= x < r as real + 1.0
    ensures x < 0.0 ==> r as real - 1.0 < x <= r as real
  {
    if x >= 0.0 then x.Floor else -((-x).Floor)
  }

  /** Kotlin's Double.toInt(): truncate toward zero, then saturate to the Int range. */
  function DoubleToInt(x: real): (r: int)
    ensures INT_MIN <= r <= INT_MAX
    ensures INT_MIN as real <= x <= INT_MAX as real ==> r == Trunc(x)
  {
    SaturateInt(Trunc(x))
  }

  /** Clamps an integer to the Int range. */
  function SaturateInt(t: int): (r: int)
    ensures INT_MIN <= r <= INT_MAX
    ensures INT_MIN <= t <= INT_MAX ==> r == t
  {
    if t < INT_MIN then INT_MIN else if t > INT_MAX then INT_MAX else t
  }

  /** Integer division rounding toward zero (Kotlin's `/` on Int). */
  function TruncDiv(a: int, d: int): int
    requires d > 0
  {
    if a >= 0 then a / d else -((-a) / d)
  }

  lemma NonNegativeRatioFloor(a: int, d: int)
    requires a >= 0 && d > 0
    ensures (a as real / d as real).Floor == a / d
  {
    var q, r := a / d, a % d;
    assert a == q * d + r;
    assert a as real / d as real == q as real + r as real / d as real;
    assert 0.0 <= r as real / d as real < 1.0;
  }

  /** Truncating the quotient of two integers is truncating integer division. */
  lemma TruncOfRatio(a: int, d: int)
    requires d > 0
    ensures Trunc(a as real / d as real) == TruncDiv(a, d)
  {
    if a >= 0 {
      NonNegativeRatioFloor(a, d);
    } else {
      NonNegativeRatioFloor(-a, d);
      assert -(a as real / d as real) == (-a) as real / d as real;
    }
  }

  /** Double.toInt() of an integer quotient, computed without reals. */
  lemma DoubleToIntOfRatio(a: int, d: int)
    requires d > 0
    ensures DoubleToInt(a as real / d as real) == SaturateInt(TruncDiv(a, d))
  {
    TruncOfRatio(a, d);
  }

  lemma TruncMonotone(x: real, y: real)
    requires x <= y
    ensures Trunc(x) <= Trunc(y)
  {
    if x >= 0.0 {
      assert Trunc(x) as real <= x <= y;
    } else if y < 0.0 {
      assert Trunc(y) as real - 1.0 < y;
      assert x <= Trunc(x) as real;
    }
  }

  /** Double.toInt() is monotone: a larger double never truncates to a smaller Int. */
  lemma DoubleToIntMonotone(x: real, y: real)
    requires x <= y
    ensures DoubleToInt(x) <= DoubleToInt(y)
  {
    TruncMonotone(x, y);
  }

  /** Kotlin's Long.toInt(): the low 32 bits, read as a signed Int. */
  function LongToInt(x: int): (r: int)
    ensures INT_MIN <= r <= INT_MAX
    ensures (r - x) % 0x1_0000_0000 == 0
    ensures INT_MIN <= x <= INT_MAX ==> r == x
  {
    (x - INT_MIN) % 0x1_0000_0000 + INT_MIN
  }

  /** `coerceIn(lo, hi)`; Kotlin throws when lo > hi, so callers must rule that out. */
  function CoerceIn(x: real, lo: real, hi: real): (r: real)
    requires lo <= hi
    ensures lo <= r <= hi
    ensures lo <= x <= hi ==> r == x
  {
    if x < lo then lo else if x > hi then hi else x
  }

  function MaxInt(a: int, b: int): int { if a >= b then a else b }

  function MinInt(a: int, b: int): int { if a <= b then a else b }
}
