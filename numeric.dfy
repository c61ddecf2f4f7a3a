/** Real-number helpers standing in for the JavaScript Math functions the pricing engine uses.
    Every quantity is a mathematical real: IEEE rounding, overflow, NaN and the infinities
    are not part of this model. */
module Numeric {

  function Abs(x: real): (r: real)
    ensures r >= 0.0 && (r == x || r == -x)
  {
    if x < 0.0 then -x else x
  }

  /** Math.max of two numbers */
  function Max(a: real, b: real): (r: real)
    ensures r >= a && r >= b && (r == a || r == b)
  {
    if a >= b then a else b
  }

  /** Math.min of two numbers */
  function Min(a: real, b: real): (r: real)
    ensures r <= a && r <= b && (r == a || r == b)
  {
    if a <= b then a else b
  }

  /** Math.round: the nearest integer, halves rounded towards +infinity. */
  function Round(x: real): (r: int)
    ensures x - 0.5 < r as real <= x + 0.5
  {
    (x + 0.5).Floor
  }

  /** `Math.round(x * 100) / 100`: x rounded to whole cents. */
  function Round2(x: real): (r: real)
    ensures x - 0.005 < r <= x + 0.005
  {
    Round(x * 100.0) as real / 100.0
  }

  /** A value is a whole number of cents. */
  predicate IsCents(x: real)
  {
    (x * 100.0).Floor as real == x * 100.0
  }

  /** Scaling by a positive factor keeps the order of two values. */
  lemma ScaleMonotone(k: real, a: real, b: real)
    requires k > 0.0
    ensures a <= b ==> k * a <= k * b
    ensures a < b ==> k * a < k * b
  {
    assert k * b - k * a == k * (b - a);
  }

  /** Rounding keeps a value between two bounds. */
  lemma RoundedBetween(lo: real, x: real, hi: real)
    requires lo <= x <= hi
    ensures Round2(lo) <= Round2(x) <= Round2(hi)
  {
    Round2Monotone(lo, x);
    Round2Monotone(x, hi);
  }

  /** Rounding never moves a larger value below a smaller one. */
  lemma Round2Monotone(x: real, y: real)
    requires x <= y
    ensures Round2(x) <= Round2(y)
  {
    var a, b := x * 100.0 + 0.5, y * 100.0 + 0.5;
    assert a <= b;
    assert a.Floor as real <= a && b < b.Floor as real + 1.0;
    assert a.Floor <= b.Floor;
  }

  /** Rounding yields whole cents and leaves whole cents alone. */
  lemma Round2Cents(x: real)
    ensures IsCents(Round2(x))
    ensures Round2(Round2(x)) == Round2(x)
  {
    var k := Round(x * 100.0);
    var y := k as real / 100.0;
    assert y == Round2(x);
    assert y * 100.0 == k as real;
    assert y * 100.0 + 0.5 == k as real + 0.5;
    assert (k as real + 0.5).Floor == k;
  }

  /** A non-negative amount rounds to a non-negative amount. */
  lemma Round2NonNegative(x: real)
    requires x >= 0.0
    ensures Round2(x) >= 0.0
  {
    Round2Monotone(0.0, x);
    assert Round2(0.0) == 0.0 by {
      assert (0.0 * 100.0 + 0.5).Floor == 0;
    }
  }
}
