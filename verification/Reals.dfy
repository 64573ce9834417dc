/** Vectors of reals: sums of squares, pointwise operations, rounding to the nearest integer. */
module Reals {

  type Vec = seq<real>

  function Abs(x: real): (r: real)
    ensures r >= 0.0 && x <= r && -x <= r
  {
    if x < 0.0 then -x else x
  }

  function Max(a: real, b: real): real { if a >= b then a else b }

  function Square(x: real): (s: real)
    ensures s >= 0.0
  {
    x * x
  }

  lemma MulMonotone(a: real, b: real, c: real)
    requires a <= b && c >= 0.0
    ensures a * c <= b * c
  {
    assert (b - a) * c >= 0.0;
  }

  lemma NonNegativeSquares(x: real, y: real)
    requires 0.0 <= x <= y
    ensures x * x <= y * y
  {
    MulMonotone(x, y, x);
    MulMonotone(x, y, y);
    assert x * y == y * x;
  }

  lemma SquareMonotone(a: real, b: real)
    requires Abs(a) <= Abs(b)
    ensures Square(a) <= Square(b)
  {
    NonNegativeSquares(Abs(a), Abs(b));
    assert Abs(a) == a || Abs(a) == -a;
    assert Abs(b) == b || Abs(b) == -b;
    assert (-a) * (-a) == a * a && (-b) * (-b) == b * b;
  }

  function SumSq(v: Vec): (s: real)
    ensures s >= 0.0
  {
    if |v| == 0 then 0.0 else Square(v[0]) + SumSq(v[1..])
  }

  lemma {:induction false} SumSqConcat(a: Vec, b: Vec)
    ensures SumSq(a + b) == SumSq(a) + SumSq(b)
    decreases |a|
  {
    if a == [] {
      assert a + b == b;
    } else {
      SumSqConcat(a[1..], b);
      assert (a + b)[1..] == a[1..] + b;
    }
  }

  /** No entry of `r` exceeds the entry of `x` in the same place. */
  predicate Dominated(r: Vec, x: Vec)
  {
    |r| == |x| && forall i :: 0 <= i < |r| ==> Abs(r[i]) <= Abs(x[i])
  }

  lemma {:induction false} DominatedSumSq(r: Vec, x: Vec)
    requires Dominated(r, x)
    ensures SumSq(r) <= SumSq(x)
    decreases |r|
  {
    if r != [] {
      SquareMonotone(r[0], x[0]);
      DominatedSumSq(r[1..], x[1..]);
    }
  }

  /** The place `j` takes the difference of its squares off the sum. */
  lemma {:induction false} DominatedSumSqAt(r: Vec, x: Vec, j: nat)
    requires Dominated(r, x) && j < |r|
    ensures SumSq(r) <= SumSq(x) - Square(x[j]) + Square(r[j])
    decreases |r|
  {
    if j == 0 {
      DominatedSumSq(r[1..], x[1..]);
    } else {
      SquareMonotone(r[0], x[0]);
      DominatedSumSqAt(r[1..], x[1..], j - 1);
    }
  }

  lemma {:induction false} SumSqBelowMax(x: Vec, m: real)
    requires forall i :: 0 <= i < |x| ==> Abs(x[i]) <= m
    ensures SumSq(x) <= |x| as real * Square(m)
    decreases |x|
  {
    if x != [] {
      SquareMonotone(x[0], m);
      SumSqBelowMax(x[1..], m);
      assert |x| as real * Square(m) == Square(m) + |x[1..]| as real * Square(m);
    }
  }

  // ------------------------------------------------------------------------
  // Pointwise operations
  // ------------------------------------------------------------------------

  function Zeros(n: nat): (v: Vec)
    ensures |v| == n
  {
    seq(n, i => 0.0)
  }

  function Add(a: Vec, b: Vec): (r: Vec)
    requires |a| == |b|
    ensures |r| == |a|
  {
    seq(|a|, i requires 0 <= i < |a| => a[i] + b[i])
  }

  function Sub(a: Vec, b: Vec): (r: Vec)
    requires |a| == |b|
    ensures |r| == |a|
  {
    seq(|a|, i requires 0 <= i < |a| => a[i] - b[i])
  }

  function Scaled(f: real, a: Vec): (r: Vec)
    ensures |r| == |a|
  {
    seq(|a|, i requires 0 <= i < |a| => f * a[i])
  }

  lemma {:induction false} SumSqZeros(n: nat)
    ensures SumSq(Zeros(n)) == 0.0
  {
    if n > 0 {
      SumSqZeros(n - 1);
      assert Zeros(n)[1..] == Zeros(n - 1);
    }
  }

  // ------------------------------------------------------------------------
  // Rounding to the nearest integer, ties to even
  // ------------------------------------------------------------------------

  function Round(x: real): int
  {
    var f := x.Floor;
    var d := x - f as real;
    if d < 0.5 then f else if d > 0.5 then f + 1 else if f % 2 == 0 then f else f + 1
  }

  /** Rounding moves by at most a half, never further than to zero, and not at all from an integer. */
  lemma RoundNearest(x: real)
    ensures Abs(x - Round(x) as real) <= 0.5
    ensures Abs(x - Round(x) as real) <= Abs(x)
  {
    if Abs(x) < 0.5 {
      if x >= 0.0 {
        assert x.Floor == 0;
      } else {
        assert x.Floor == -1;
      }
    }
  }

  lemma RoundInteger(n: int)
    ensures Round(n as real) == n
  {
  }

  lemma RoundWithin(x: real, m: int)
    requires Abs(x) <= m as real
    ensures -m <= Round(x) <= m
  {
  }

  lemma RoundZeroIff(x: real)
    ensures Round(x) == 0 <==> Abs(x) <= 0.5
  {
    RoundNearest(x);
    if Abs(x) <= 0.5 {
      assert x.Floor == 0 || x.Floor == -1;
    }
  }

  // ------------------------------------------------------------------------
  // Rounding to a floating-point number
  // ------------------------------------------------------------------------

  ghost predicate Positive(r: real -> real) { forall x {:trigger r(x)} :: x > 0.0 ==> r(x) > 0.0 }

  /** How a positive number is stored; what is stored of it is positive. */
  type Rounding = r: real -> real | Positive(r) witness (x: real) => x

  /** `y` differs from `x` by at most `delta` times `x`. */
  predicate Near(y: real, x: real, delta: real) { Abs(y - x) <= delta * x }

  /**
   The relative error is at most `delta`, itself at most 1/256; it is 2^-24 in single precision and 0 over the
   reals.
   */
  ghost predicate Accurate(r: Rounding, delta: real)
  {
    0.0 <= delta <= 0.00390625 && forall x {:trigger r(x)} :: x > 0.0 ==> Near(r(x), x, delta)
  }

  lemma NearBounds(y: real, x: real, delta: real)
    requires Near(y, x, delta) && x >= 0.0 && 0.0 <= delta <= 0.00390625
    ensures 255.0 * x <= 256.0 * y && 256.0 * y <= 257.0 * x
  {
    var share := delta * x;
    assert share <= 0.00390625 * x by {
      MulMonotone(delta, 0.00390625, x);
    }
    LinearBounds(y, x, share);
  }

  lemma LinearBounds(y: real, x: real, share: real)
    requires Abs(y - x) <= share <= 0.00390625 * x
    ensures 255.0 * x <= 256.0 * y && 256.0 * y <= 257.0 * x
  {
  }
}
