/**
 * Numeric helpers shared by the scoring and report code: JavaScript's
 * Math.round, Math.min/Math.max clamping, Number.prototype.toFixed(1)
 * read back by parseFloat, sums over sequences, and square roots stated
 * as a relation.
 */
module Numbers {

  function Min(a: real, b: real): (r: real)
    ensures r <= a && r <= b && (r == a || r == b)
  {
    if a <= b then a else b
  }

  function Max(a: real, b: real): (r: real)
    ensures r >= a && r >= b && (r == a || r == b)
  {
    if a >= b then a else b
  }

  /** Math.max(lo, Math.min(hi, x)): x pulled into [lo, hi]. */
  function Clamp(x: real, lo: real, hi: real): (r: real)
    requires lo <= hi
    ensures lo <= r <= hi
    ensures lo <= x <= hi ==> r == x
    ensures x < lo ==> r == lo
    ensures x > hi ==> r == hi
  {
    Max(lo, Min(hi, x))
  }

  /** Math.round: the nearest integer, a tie going to the larger one. */
  function Round(x: real): (n: int)
    ensures n as real - 0.5 <= x < n as real + 0.5
  {
    (x + 0.5).Floor
  }

  /** The integer a real lies within half a unit of is unique. */
  lemma RoundUnique(x: real, n: int)
    requires n as real - 0.5 <= x < n as real + 0.5
    ensures Round(x) == n
  {
  }

  /** Rounding never reverses the order of two reals. */
  lemma RoundMonotone(x: real, y: real)
    requires x <= y
    ensures Round(x) <= Round(y)
  {
  }

  /** Rounding a real that lies in [lo, hi] (integers) stays in [lo, hi]. */
  lemma RoundWithin(x: real, lo: int, hi: int)
    requires lo as real <= x <= hi as real
    ensures lo <= Round(x) <= hi
  {
  }

  /**
   * parseFloat(x.toFixed(1)): the nearest multiple of 0.1, a tie going away
   * from zero (toFixed rounds the magnitude and then restores the sign).
   */
  function RoundTenth(x: real): (r: real)
    ensures -0.05 <= r - x <= 0.05
    ensures x >= 0.0 ==> r >= 0.0
    ensures x <= 0.0 ==> r <= 0.0
  {
    var tenths := if x >= 0.0 then (x * 10.0 + 0.5).Floor else -((-x * 10.0 + 0.5).Floor);
    tenths as real / 10.0
  }

  function Sum(xs: seq<real>): real
  {
    if xs == [] then 0.0 else Sum(xs[..|xs| - 1]) + xs[|xs| - 1]
  }

  /** Sum of squared distances from m, the numerator of a population variance. */
  function SumSquares(xs: seq<real>, m: real): (r: real)
    ensures r >= 0.0
  {
    if xs == [] then 0.0
    else
      var d := xs[|xs| - 1] - m;
      assert d * d >= 0.0 by { SquareNonNegative(d); }
      SumSquares(xs[..|xs| - 1], m) + d * d
  }

  lemma SquareNonNegative(d: real)
    ensures d * d >= 0.0
  {
    if d < 0.0 {
      assert d * d == (-d) * (-d);
    }
  }

  lemma MulMonotone(k: real, a: real, b: real)
    requires k >= 0.0 && a <= b
    ensures k * a <= k * b
  {
    assert k * b - k * a == k * (b - a);
  }

  lemma MulStrict(k: real, a: real, b: real)
    requires k > 0.0 && a < b
    ensures k * a < k * b
  {
    assert k * b - k * a == k * (b - a);
  }

  function Mean(xs: seq<real>): real
    requires |xs| > 0
  {
    Sum(xs) / |xs| as real
  }

  /** Population variance: Σ(x - mean)² / n. */
  function Variance(xs: seq<real>): (v: real)
    requires |xs| > 0
    ensures v >= 0.0
  {
    SumSquares(xs, Mean(xs)) / |xs| as real
  }

  /** r is a square root of x in the sense of Math.sqrt: the non-negative one. */
  ghost predicate IsSqrt(x: real, r: real)
  {
    r >= 0.0 && r * r == x
  }

  /** Every element equals c. */
  ghost predicate AllEqual(xs: seq<real>, c: real)
  {
    forall i :: 0 <= i < |xs| ==> xs[i] == c
  }

  lemma {:induction false} SumConstant(xs: seq<real>, c: real)
    requires AllEqual(xs, c)
    ensures Sum(xs) == |xs| as real * c
  {
    if xs != [] {
      SumConstant(xs[..|xs| - 1], c);
    }
  }

  lemma {:induction false} SumSquaresAtConstant(xs: seq<real>, c: real)
    requires AllEqual(xs, c)
    ensures SumSquares(xs, c) == 0.0
  {
    if xs != [] {
      SumSquaresAtConstant(xs[..|xs| - 1], c);
    }
  }

  /** Monthly totals that are all the same have that value as mean and no variance. */
  lemma ConstantHasNoVariance(xs: seq<real>, c: real)
    requires |xs| > 0 && AllEqual(xs, c)
    ensures Mean(xs) == c && Variance(xs) == 0.0
  {
    SumConstant(xs, c);
    SumSquaresAtConstant(xs, c);
  }

  lemma ProductPositive(x: real, y: real)
    requires x > 0.0 && y > 0.0
    ensures x * y > 0.0
  {
  }

  lemma ProductNonNegative(x: real, y: real)
    requires x >= 0.0 && y >= 0.0
    ensures x * y >= 0.0
  {
  }

  /** Multiplying by a positive number keeps the sign. */
  lemma SignOfProduct(x: real, y: real)
    requires y > 0.0
    ensures x > 0.0 <==> x * y > 0.0
    ensures x >= 0.0 <==> x * y >= 0.0
  {
    if x > 0.0 {
      ProductPositive(x, y);
    } else if x < 0.0 {
      ProductPositive(-x, y);
      assert (-x) * y == -(x * y);
    }
  }

  /** For non-negative reals, comparing squares is comparing the numbers. */
  lemma SquareOrder(a: real, b: real)
    requires a >= 0.0 && b >= 0.0
    ensures a <= b <==> a * a <= b * b
  {
    assert b * b - a * a == (b - a) * (b + a);
    if a <= b {
      ProductNonNegative(b - a, b + a);
    } else {
      ProductPositive(a - b, a + b);
    }
  }
}
