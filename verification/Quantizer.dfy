/**
 Two-bit quantisation of the largest entries of one chunk, over the reals, with a scale that is
 rounded before it is used.
 */
module Quantizer {
  import opened Common
  import opened Reals

  /** The least magnitude a chunk is scaled by. */
  const FLOOR: real := 0.000000000001

  /** What is sent of a chunk: places, quantised values and the scale. */
  datatype Packed = Packed(idx: seq<int>, q: seq<int>, scale: real)

  function AMax(v: Vec): (m: real)
    ensures m >= 0.0
    ensures forall i :: 0 <= i < |v| ==> Abs(v[i]) <= m
  {
    if |v| == 0 then 0.0 else
      var rest := AMax(v[1..]);
      assert forall i :: 1 <= i < |v| ==> v[i] == v[1..][i - 1];
      Max(Abs(v[0]), rest)
  }

  lemma {:induction false} AMaxAttained(v: Vec) returns (i: nat)
    requires |v| > 0
    ensures i < |v| && Abs(v[i]) == AMax(v)
    decreases |v|
  {
    if |v| == 1 || Abs(v[0]) >= AMax(v[1..]) {
      i := 0;
    } else {
      i := AMaxAttained(v[1..]);
      i := i + 1;
    }
  }

  predicate Inside(idx: seq<int>, n: nat) { forall i :: 0 <= i < |idx| ==> 0 <= idx[i] < n }

  /** `idx` are `k` different places of the chunk whose magnitudes no other place exceeds. */
  predicate IsTopK(c: Vec, idx: seq<int>, k: nat)
  {
    && |idx| == k && Inside(idx, |c|) && Distinct(idx)
    && forall i, j :: 0 <= i < k && 0 <= j < |c| && j !in idx ==> Abs(c[j]) <= Abs(c[idx[i]])
  }

  function Selected(c: Vec, idx: seq<int>): (s: Vec)
    requires Inside(idx, |c|)
    ensures |s| == |idx|
  {
    seq(|idx|, i requires 0 <= i < |idx| => c[idx[i]])
  }

  /** A third of the largest magnitude, as it is stored: sender and receiver use the same number. */
  function Scale(rnd: Rounding, sel: Vec): (s: real)
    ensures s > 0.0
  {
    rnd(Max(AMax(sel), FLOOR) / 3.0)
  }

  function Clamp(n: int, lo: int, hi: int): int { if n < lo then lo else if n > hi then hi else n }

  function Quant(x: real, s: real): (q: int)
    requires s > 0.0
    ensures -3 <= q <= 3
  {
    Clamp(Round(x / s), -3, 3)
  }

  function Quants(sel: Vec, s: real): (q: seq<int>)
    requires s > 0.0
    ensures |q| == |sel| && forall i :: 0 <= i < |q| ==> -3 <= q[i] <= 3
  {
    seq(|sel|, i requires 0 <= i < |sel| => Quant(sel[i], s))
  }

  function Dequants(q: seq<int>, s: real): (v: Vec)
    ensures |v| == |q|
  {
    seq(|q|, i requires 0 <= i < |q| => q[i] as real * s)
  }

  /** Values written into a zero chunk one after another. */
  function Scatter(n: nat, idx: seq<int>, vals: Vec): (d: Vec)
    requires |idx| == |vals| && Inside(idx, n)
    ensures |d| == n
    decreases |idx|
  {
    if |idx| == 0 then Zeros(n)
    else
      var m := |idx| - 1;
      Scatter(n, idx[..m], vals[..m])[idx[m] := vals[m]]
  }

  lemma {:induction false} ScatterElsewhere(n: nat, idx: seq<int>, vals: Vec, j: nat)
    requires |idx| == |vals| && Inside(idx, n) && j < n && j !in idx
    ensures Scatter(n, idx, vals)[j] == 0.0
    decreases |idx|
  {
    if |idx| > 0 {
      ScatterElsewhere(n, idx[..|idx| - 1], vals[..|idx| - 1], j);
    }
  }

  lemma {:induction false} ScatterAt(n: nat, idx: seq<int>, vals: Vec, i: nat)
    requires |idx| == |vals| && Inside(idx, n) && Distinct(idx) && i < |idx|
    ensures Scatter(n, idx, vals)[idx[i]] == vals[i]
    decreases |idx|
  {
    var m := |idx| - 1;
    if i < m {
      ScatterAt(n, idx[..m], vals[..m], i);
    }
  }

  function PackChunk(rnd: Rounding, c: Vec, idx: seq<int>): Packed
    requires Inside(idx, |c|)
  {
    var sel := Selected(c, idx);
    Packed(idx, Quants(sel, Scale(rnd, sel)), Scale(rnd, sel))
  }

  predicate Sound(p: Packed, n: nat) { |p.q| == |p.idx| && Inside(p.idx, n) }

  function UnpackChunk(p: Packed, n: nat): (d: Vec)
    requires Sound(p, n)
    ensures |d| == n
  {
    Scatter(n, p.idx, Dequants(p.q, p.scale))
  }

  // ------------------------------------------------------------------------
  // What is lost of one entry
  // ------------------------------------------------------------------------

  lemma QuotientBound(x: real, s: real, m: real)
    requires s > 0.0 && Abs(x) <= m * s
    ensures Abs(x / s) <= m && (x / s) * s == x
  {
    var y := x / s;
    assert y * s == x;
    if y > m {
      assert (y - m) * s > 0.0;
    } else if y < -m {
      assert (-y - m) * s > 0.0;
    }
  }

  lemma AbsProduct(a: real, s: real, p: real)
    requires s > 0.0 && p == a * s
    ensures Abs(p) == Abs(a) * s
  {
    if a >= 0.0 {
      MulMonotone(0.0, a, s);
    } else {
      MulMonotone(0.0, -a, s);
    }
  }

  lemma ScaledAbs(e: real, y: real, s: real, d: real, x: real)
    requires s > 0.0 && d == e * s && x == y * s && Abs(e) <= Abs(y)
    ensures Abs(d) <= Abs(x)
  {
    if y >= 0.0 {
      MulMonotone(e, y, s);
      MulMonotone(-e, y, s);
      assert (-e) * s == -d;
    } else {
      MulMonotone(e, -y, s);
      MulMonotone(-e, -y, s);
      assert (-e) * s == -d && (-y) * s == -x;
    }
  }

  lemma ScaledResidual(x: real, y: real, q: real, s: real, v: real)
    requires s > 0.0 && x == y * s && v == q * s && Abs(y - q) <= Abs(y)
    ensures Abs(x - v) <= Abs(x)
  {
    assert x - v == (y - q) * s;
    ScaledAbs(y - q, y, s, x - v, x);
  }

  lemma UnitResidual(y: real)
    ensures Abs(y - Clamp(Round(y), -3, 3) as real) <= Abs(y)
    ensures Abs(y) <= 3.25 ==> Clamp(Round(y), -3, 3) == Round(y)
  {
    RoundNearest(y);
  }

  lemma Quotient(x: real, s: real)
    requires s > 0.0
    ensures (x / s) * s == x
  {
  }

  /** Whatever the scale, quantisation never enlarges what is left over. */
  lemma EntryResidual(x: real, s: real, v: real)
    requires s > 0.0 && v == Quant(x, s) as real * s
    ensures Abs(x - v) <= Abs(x)
  {
    Quotient(x, s);
    UnitResidual(x / s);
    ScaledResidual(x, x / s, Quant(x, s) as real, s, v);
  }

  lemma RoundThree(y: real)
    requires 2.5 < Abs(y) < 3.5
    ensures Clamp(Round(y), -3, 3) == if y >= 0.0 then 3 else -3
  {
    RoundNearest(y);
  }

  lemma FactorBounds(a: real, s: real, p: real, lo: real, hi: real)
    requires s > 0.0 && p == a * s && lo * s < p < hi * s
    ensures lo < a < hi
  {
    if a <= lo {
      MulMonotone(a, lo, s);
    }
    if a >= hi {
      MulMonotone(hi, a, s);
    }
  }

  lemma RoundsToThree(x: real, s: real)
    requires s > 0.0 && 2.5 * s < Abs(x) < 3.5 * s
    ensures Quant(x, s) == if x >= 0.0 then 3 else -3
  {
    var y := x / s;
    Quotient(x, s);
    AbsProduct(y, s, x);
    FactorBounds(Abs(y), s, Abs(x), 2.5, 3.5);
    SameSign(x, y, s);
    RoundThree(y);
  }

  lemma SameSign(x: real, y: real, s: real)
    requires s > 0.0 && x == y * s
    ensures x >= 0.0 <==> y >= 0.0
  {
    if y >= 0.0 {
      MulMonotone(0.0, y, s);
    } else {
      assert (-y) * s > 0.0;
    }
  }

  lemma ThreeTimes(m: real, s: real, delta: real)
    requires Near(s, m / 3.0, delta)
    ensures Abs(m - 3.0 * s) <= delta * m
  {
    var third := m / 3.0;
    assert delta * m == 3.0 * (delta * third);
  }

  lemma AboutThree(m: real, s: real, delta: real)
    requires s > 0.0 && m >= 0.0 && Near(s, m / 3.0, delta) && 0.0 <= delta <= 0.00390625
    ensures 2.5 * s < m < 3.5 * s
  {
    NearBounds(s, m / 3.0, delta);
  }

  /** An entry of about three scales is sent up to the error of the scale. */
  lemma LargestEntryClose(x: real, m: real, s: real, delta: real, v: real, left: real)
    requires s > 0.0 && Abs(x) == m && Near(s, m / 3.0, delta) && 0.0 <= delta <= 0.00390625
    requires v == Quant(x, s) as real * s && left == delta * m
    ensures Abs(x - v) <= left
  {
    AboutThree(m, s, delta);
    RoundsToThree(x, s);
    ThreeTimes(m, s, delta);
  }

  /** An entry of a whole number of scales, up to three, is sent without loss. */
  lemma WholeEntryExact(x: real, s: real, n: int)
    requires s > 0.0 && x == n as real * s && -3 <= n <= 3
    ensures Quant(x, s) == n
  {
    assert x / s == n as real;
    RoundInteger(n);
  }

  lemma HalfIff(a: real, s: real, p: real)
    requires s > 0.0 && p == a * s
    ensures a <= 0.5 <==> 2.0 * p <= s
  {
    if a <= 0.5 {
      MulMonotone(a, 0.5, s);
    } else {
      assert (a - 0.5) * s > 0.0;
      assert (a - 0.5) * s == p - 0.5 * s;
    }
  }

  lemma ZeroEntryIff(x: real, s: real)
    requires s > 0.0
    ensures Quant(x, s) == 0 <==> 2.0 * Abs(x) <= s
  {
    var y := x / s;
    Quotient(x, s);
    AbsProduct(y, s, x);
    RoundZeroIff(y);
    HalfIff(Abs(y), s, Abs(x));
  }

  // ------------------------------------------------------------------------
  // What is lost of one chunk
  // ------------------------------------------------------------------------

  /** The selection holds the largest magnitude of the chunk. */
  lemma TopKHoldsMax(c: Vec, idx: seq<int>, k: nat) returns (i: nat)
    requires IsTopK(c, idx, k) && k >= 1
    ensures AMax(Selected(c, idx)) == AMax(c) && i < k && Abs(c[idx[i]]) == AMax(c)
  {
    var sel := Selected(c, idx);
    i := AMaxAttained(sel);
    var j := AMaxAttained(c);
    assert sel[i] == c[idx[i]];
    if j in idx {
      var l :| 0 <= l < |idx| && idx[l] == j;
      assert sel[l] == c[j];
    }
  }

  /** What is left of the chunk once the values `vals` at `idx` have been sent. */
  function Residual(c: Vec, idx: seq<int>, vals: Vec): (r: Vec)
    requires Inside(idx, |c|) && |idx| == |vals|
    ensures |r| == |c|
  {
    Sub(c, Scatter(|c|, idx, vals))
  }

  /** No value sent is further from its entry than zero is. */
  predicate NeverWorse(c: Vec, idx: seq<int>, vals: Vec)
    requires Inside(idx, |c|) && |idx| == |vals|
  {
    forall i :: 0 <= i < |idx| ==> Abs(c[idx[i]] - vals[i]) <= Abs(c[idx[i]])
  }

  lemma ResidualAt(c: Vec, idx: seq<int>, vals: Vec, i: nat)
    requires Inside(idx, |c|) && |idx| == |vals| && Distinct(idx) && i < |idx|
    ensures Residual(c, idx, vals)[idx[i]] == c[idx[i]] - vals[i]
  {
    ScatterAt(|c|, idx, vals, i);
  }

  lemma ResidualDominated(c: Vec, idx: seq<int>, vals: Vec)
    requires Inside(idx, |c|) && |idx| == |vals| && Distinct(idx) && NeverWorse(c, idx, vals)
    ensures Dominated(Residual(c, idx, vals), c)
  {
    forall j | 0 <= j < |c| ensures Abs(Residual(c, idx, vals)[j]) <= Abs(c[j]) {
      if j in idx {
        var i :| 0 <= i < |idx| && idx[i] == j;
        ResidualAt(c, idx, vals, i);
      } else {
        ScatterElsewhere(|c|, idx, vals, j);
      }
    }
  }

  lemma ShareOfSquares(n: nat, total: real, m: real)
    requires n >= 1 && total <= n as real * m
    ensures total / n as real <= m
  {
    var t := total / n as real;
    assert t * n as real == total;
    if t > m {
      assert (t - m) * n as real > 0.0;
    }
  }

  /** The mean square of a chunk is at most the square of its largest magnitude. */
  lemma MeanBelowMax(c: Vec)
    requires |c| >= 1
    ensures SumSq(c) / |c| as real <= Square(AMax(c))
  {
    SumSqBelowMax(c, AMax(c));
    ShareOfSquares(|c|, SumSq(c), Square(AMax(c)));
  }

  lemma MaxDrops(c: Vec, idx: seq<int>, vals: Vec, i: nat, left: real)
    requires Inside(idx, |c|) && |idx| == |vals| && Distinct(idx) && NeverWorse(c, idx, vals)
    requires MaxSent(c, idx, vals, i, left)
    ensures SumSq(Residual(c, idx, vals)) <= SumSq(c) - Square(AMax(c)) + Square(left)
  {
    var r := Residual(c, idx, vals);
    ResidualDominated(c, idx, vals);
    ResidualAt(c, idx, vals, i);
    DominatedSumSqAt(r, c, idx[i]);
    SquareMonotone(AMax(c), c[idx[i]]);
    SquareMonotone(r[idx[i]], left);
  }

  lemma NeverWorseShrinks(c: Vec, idx: seq<int>, vals: Vec)
    requires Inside(idx, |c|) && |idx| == |vals| && Distinct(idx) && NeverWorse(c, idx, vals)
    ensures SumSq(Residual(c, idx, vals)) <= SumSq(c)
  {
    ResidualDominated(c, idx, vals);
    DominatedSumSq(Residual(c, idx, vals), c);
  }

  function Sent(rnd: Rounding, c: Vec, idx: seq<int>): (v: Vec)
    requires Inside(idx, |c|)
    ensures |v| == |idx|
  {
    var p := PackChunk(rnd, c, idx);
    Dequants(p.q, p.scale)
  }

  lemma SentValue(rnd: Rounding, c: Vec, idx: seq<int>, i: nat)
    requires Inside(idx, |c|) && i < |idx|
    ensures var s := Scale(rnd, Selected(c, idx));
            Sent(rnd, c, idx)[i] == PackChunk(rnd, c, idx).q[i] as real * s &&
            PackChunk(rnd, c, idx).q[i] == Quant(c[idx[i]], s)
    ensures Abs(c[idx[i]]) <= AMax(Selected(c, idx))
  {
    assert Selected(c, idx)[i] == c[idx[i]];
  }

  lemma SentEntryNeverWorse(rnd: Rounding, c: Vec, idx: seq<int>, i: nat)
    requires Inside(idx, |c|) && i < |idx|
    ensures Abs(c[idx[i]] - Sent(rnd, c, idx)[i]) <= Abs(c[idx[i]])
  {
    SentValue(rnd, c, idx, i);
    EntryResidual(c[idx[i]], Scale(rnd, Selected(c, idx)), Sent(rnd, c, idx)[i]);
  }

  lemma SentNeverWorse(rnd: Rounding, c: Vec, idx: seq<int>)
    requires Inside(idx, |c|)
    ensures NeverWorse(c, idx, Sent(rnd, c, idx))
  {
    var vals := Sent(rnd, c, idx);
    forall i | 0 <= i < |idx| ensures Abs(c[idx[i]] - vals[i]) <= Abs(c[idx[i]]) {
      SentEntryNeverWorse(rnd, c, idx, i);
    }
  }

  lemma ScaleOfMax(rnd: Rounding, delta: real, sel: Vec, m: real)
    requires Accurate(rnd, delta) && AMax(sel) == m >= FLOOR
    ensures Near(Scale(rnd, sel), m / 3.0, delta)
  {
  }

  /** The largest entry goes out up to a share `delta` of it. */
  predicate MaxSent(c: Vec, idx: seq<int>, vals: Vec, i: nat, left: real)
  {
    i < |idx| == |vals| && Inside(idx, |c|) && Abs(c[idx[i]]) == AMax(c) && Abs(c[idx[i]] - vals[i]) <= left
  }

  lemma SentClose(rnd: Rounding, c: Vec, idx: seq<int>, i: nat, x: real, m: real, s: real, delta: real, left: real)
    requires Inside(idx, |c|) && i < |idx| && x == c[idx[i]] && s == Scale(rnd, Selected(c, idx))
    requires Abs(x) == m && Near(s, m / 3.0, delta) && 0.0 <= delta <= 0.00390625 && left == delta * m
    ensures Abs(x - Sent(rnd, c, idx)[i]) <= left
  {
    var v := SentReal(rnd, c, idx, i, x, s);
    LargestEntryClose(x, m, s, delta, v, left);
  }

  lemma SentReal(rnd: Rounding, c: Vec, idx: seq<int>, i: nat, x: real, s: real) returns (v: real)
    requires Inside(idx, |c|) && i < |idx| && x == c[idx[i]] && s == Scale(rnd, Selected(c, idx))
    ensures v == Sent(rnd, c, idx)[i] == Quant(x, s) as real * s
  {
    SentValue(rnd, c, idx, i);
    v := Sent(rnd, c, idx)[i];
  }

  lemma ScaleNear(rnd: Rounding, delta: real, sel: Vec, x: real)
    requires Accurate(rnd, delta) && Abs(x) <= AMax(sel)
    ensures Abs(x) <= 3.25 * Scale(rnd, sel)
  {
    NearBounds(Scale(rnd, sel), Max(AMax(sel), FLOOR) / 3.0, delta);
  }

  /** The clamp is never active: every value sent is the nearest integer to the scaled entry. */
  lemma ClampIdle(rnd: Rounding, delta: real, c: Vec, idx: seq<int>, i: nat)
    requires Accurate(rnd, delta) && Inside(idx, |c|) && i < |idx|
    ensures var p := PackChunk(rnd, c, idx); p.q[i] == Round(c[idx[i]] / p.scale)
  {
    SentValue(rnd, c, idx, i);
    var s := Scale(rnd, Selected(c, idx));
    ScaleNear(rnd, delta, Selected(c, idx), c[idx[i]]);
    QuotientBound(c[idx[i]], s, 3.25);
    UnitResidual(c[idx[i]] / s);
  }

  // ------------------------------------------------------------------------
  // Contraction
  // ------------------------------------------------------------------------

  /**
   The share of a chunk of `n` entries that goes out is one over this: `n`, and a little more when scales are
   rounded.
   */
  function Rate(n: nat, delta: real): (r: real)
    requires n >= 1 && 0.0 <= delta <= 0.00390625
    ensures r >= n as real >= 1.0 && (delta == 0.0 ==> r == n as real)
  {
    Keeps(n as real, delta * delta, delta);
    n as real / (1.0 - delta * delta)
  }

  lemma Keeps(n: real, d: real, delta: real)
    requires n >= 1.0 && 0.0 <= delta <= 0.00390625 && d == delta * delta
    ensures 0.0 <= d < 1.0 && n / (1.0 - d) >= n && (d == 0.0 ==> n / (1.0 - d) == n)
  {
    NonNegativeSquares(0.0, delta);
    NonNegativeSquares(delta, 0.00390625);
    var r := n / (1.0 - d);
    assert r * (1.0 - d) == n;
    MulMonotone(1.0 - d, 1.0, n);
    assert (r - n) * (1.0 - d) >= 0.0;
  }

  lemma ShareAtRate(total: real, n: nat, delta: real, m: real)
    requires n >= 1 && 0.0 <= delta <= 0.00390625 && total / n as real <= m
    ensures total / Rate(n, delta) <= m - delta * delta * m
  {
    var d := delta * delta;
    Keeps(n as real, d, delta);
    RateShare(total, n as real, 1.0 - d);
    MulMonotone(total / n as real, m, 1.0 - d);
  }

  lemma RateShare(total: real, n: real, keep: real)
    requires n > 0.0 && keep > 0.0 && n / keep > 0.0
    ensures total / (n / keep) == total / n * keep
  {
    var r := n / keep;
    assert r * keep == n;
    var a, b := total / r, total / n * keep;
    assert a * r == total;
    assert total / n * n == total;
    assert b * r == total / n * (keep * r);
    assert (a - b) * r == 0.0;
  }

  lemma LessAtRate(total: real, n: nat, delta: real)
    requires n >= 1 && 0.0 <= delta <= 0.00390625 && total >= 0.0
    ensures total / Rate(n, delta) <= total / n as real
  {
    var m := total / n as real;
    assert m >= 0.0;
    ShareAtRate(total, n, delta, m);
    NonNegativeSquares(0.0, delta);
    MulMonotone(0.0, delta * delta, m);
  }

  lemma SquareOfShare(delta: real, m: real, left: real)
    requires left == delta * m
    ensures Square(left) == delta * delta * Square(m)
  {
  }

  /**
   The residual of a chunk whose largest magnitude reaches the floor is shorter than the chunk by
   the factor 1 - 1/Rate, which is 1 - 1/C when scales are exact.
   */
  lemma ChunkContraction(rnd: Rounding, delta: real, c: Vec, idx: seq<int>, k: nat)
    requires Accurate(rnd, delta) && IsTopK(c, idx, k) && k >= 1 && AMax(c) >= FLOOR
    ensures SumSq(Residual(c, idx, Sent(rnd, c, idx))) <= SumSq(c) - SumSq(c) / Rate(|c|, delta)
  {
    var i := TopKHoldsMax(c, idx, k);
    var m := AMax(c);
    ScaleOfMax(rnd, delta, Selected(c, idx), m);
    ContractsAtScale(rnd, delta, c, idx, k, Scale(rnd, Selected(c, idx)), m, delta * m);
  }

  lemma ContractsAtScale(rnd: Rounding, delta: real, c: Vec, idx: seq<int>, k: nat, s: real, m: real, left: real)
    requires IsTopK(c, idx, k) && k >= 1 && m == AMax(c) && 0.0 <= delta <= 0.00390625 && left == delta * m
    requires s == Scale(rnd, Selected(c, idx)) && Near(s, m / 3.0, delta)
    ensures SumSq(Residual(c, idx, Sent(rnd, c, idx))) <= SumSq(c) - SumSq(c) / Rate(|c|, delta)
  {
    MaxGone(rnd, delta, c, idx, k, m, left);
    MeanBelowMax(c);
    DropsAtRate(SumSq(Residual(c, idx, Sent(rnd, c, idx))), SumSq(c), |c|, delta, m, left);
  }

  lemma MaxGone(rnd: Rounding, delta: real, c: Vec, idx: seq<int>, k: nat, m: real, left: real)
    requires IsTopK(c, idx, k) && k >= 1 && m == AMax(c) && 0.0 <= delta <= 0.00390625 && left == delta * m
    requires Near(Scale(rnd, Selected(c, idx)), m / 3.0, delta)
    ensures SumSq(Residual(c, idx, Sent(rnd, c, idx))) <= SumSq(c) - Square(m) + Square(left)
  {
    var i := TopKHoldsMax(c, idx, k);
    SentClose(rnd, c, idx, i, c[idx[i]], m, Scale(rnd, Selected(c, idx)), delta, left);
    SentNeverWorse(rnd, c, idx);
    MaxDrops(c, idx, Sent(rnd, c, idx), i, left);
  }

  lemma DropsAtRate(r: real, total: real, n: nat, delta: real, m: real, left: real)
    requires n >= 1 && 0.0 <= delta <= 0.00390625 && total / n as real <= Square(m)
    requires r <= total - Square(m) + Square(left) && left == delta * m
    ensures r <= total - total / Rate(n, delta)
  {
    SquareOfShare(delta, m, left);
    ShareAtRate(total, n, delta, Square(m));
  }

  lemma MeanBelowFloor(c: Vec)
    requires |c| >= 1 && AMax(c) <= FLOOR
    ensures SumSq(c) / |c| as real <= FLOOR * FLOOR
  {
    SumSqBelowMax(c, FLOOR);
    ShareOfSquares(|c|, SumSq(c), FLOOR * FLOOR);
  }

  lemma SmallChunkContracts(rnd: Rounding, delta: real, c: Vec, idx: seq<int>, k: nat)
    requires 0.0 <= delta <= 0.00390625 && IsTopK(c, idx, k) && k >= 1 && AMax(c) <= FLOOR
    ensures SumSq(Residual(c, idx, Sent(rnd, c, idx))) <= SumSq(c) - SumSq(c) / Rate(|c|, delta) + FLOOR * FLOOR
  {
    SentNeverWorse(rnd, c, idx);
    NeverWorseShrinks(c, idx, Sent(rnd, c, idx));
    MeanBelowFloor(c);
    LessAtRate(SumSq(c), |c|, delta);
  }

  /** Of any chunk at all, the contraction holds up to the square of the floor. */
  lemma ChunkContractionUpToFloor(rnd: Rounding, delta: real, c: Vec, idx: seq<int>, k: nat)
    requires Accurate(rnd, delta) && IsTopK(c, idx, k) && k >= 1
    ensures SumSq(Residual(c, idx, Sent(rnd, c, idx))) <= SumSq(c) - SumSq(c) / Rate(|c|, delta) + FLOOR * FLOOR
  {
    if AMax(c) >= FLOOR {
      ChunkContraction(rnd, delta, c, idx, k);
    } else {
      SmallChunkContracts(rnd, delta, c, idx, k);
    }
  }

  // ------------------------------------------------------------------------
  // The floor
  // ------------------------------------------------------------------------

  /** Nothing is sent of a chunk exactly when its largest magnitude is at most half the scale. */
  lemma NothingSentIff(rnd: Rounding, c: Vec, idx: seq<int>, k: nat)
    requires IsTopK(c, idx, k) && k >= 1
    ensures (forall i :: 0 <= i < k ==> PackChunk(rnd, c, idx).q[i] == 0) <==>
            2.0 * AMax(c) <= Scale(rnd, Selected(c, idx))
  {
    var s := Scale(rnd, Selected(c, idx));
    var l := TopKHoldsMax(c, idx, k);
    SentValue(rnd, c, idx, l);
    ZeroEntryIff(c[idx[l]], s);
    forall i | 0 <= i < k ensures 2.0 * AMax(c) <= s ==> PackChunk(rnd, c, idx).q[i] == 0 {
      SentValue(rnd, c, idx, i);
      ZeroEntryIff(c[idx[i]], s);
    }
  }

  lemma ExactScale(rnd: Rounding, sel: Vec)
    requires Accurate(rnd, 0.0)
    ensures Scale(rnd, sel) == Max(AMax(sel), FLOOR) / 3.0
  {
    var x := Max(AMax(sel), FLOOR) / 3.0;
    assert Near(rnd(x), x, 0.0);
  }

  /** With exact scales, that is a sixth of the floor. */
  lemma NothingSentBelow(rnd: Rounding, c: Vec, idx: seq<int>, k: nat)
    requires Accurate(rnd, 0.0) && IsTopK(c, idx, k) && k >= 1
    ensures (forall i :: 0 <= i < k ==> PackChunk(rnd, c, idx).q[i] == 0) <==> 6.0 * AMax(c) <= FLOOR
  {
    NothingSentIff(rnd, c, idx, k);
    var l := TopKHoldsMax(c, idx, k);
    ExactScale(rnd, Selected(c, idx));
  }

  ghost predicate Contracts(rnd: Rounding, c: Vec, idx: seq<int>)
    requires Inside(idx, |c|) && |c| >= 1
  {
    SumSq(Residual(c, idx, Sent(rnd, c, idx))) <= SumSq(c) - SumSq(c) / |c| as real
  }

  /** Every chunk whose largest magnitude is `m` contracts, whatever its size and the number of places kept. */
  ghost predicate AlwaysContracts(rnd: Rounding, m: real)
  {
    forall c: Vec, idx, k {:trigger IsTopK(c, idx, k)} ::
      IsTopK(c, idx, k) && k >= 1 && |c| >= 1 && AMax(c) == m ==> Contracts(rnd, c, idx)
  }

  /** Zero, at least the floor, or one or two thirds of it. */
  predicate GoodMagnitude(m: real) { m == 0.0 || m >= FLOOR || 3.0 * m == FLOOR || 3.0 * m == 2.0 * FLOOR }

  lemma NothingToLose(r: real, total: real, n: nat)
    requires n >= 1 && r <= total == 0.0
    ensures r <= total - total / n as real
  {
  }

  lemma ZeroSum(c: Vec)
    requires AMax(c) == 0.0
    ensures SumSq(c) == 0.0
  {
    SumSqBelowMax(c, 0.0);
    assert Square(0.0) == 0.0;
  }

  lemma ZeroChunkContracts(rnd: Rounding, c: Vec, idx: seq<int>, k: nat)
    requires IsTopK(c, idx, k) && k >= 1 && |c| >= 1 && AMax(c) == 0.0
    ensures Contracts(rnd, c, idx)
  {
    SentNeverWorse(rnd, c, idx);
    NeverWorseShrinks(c, idx, Sent(rnd, c, idx));
    ZeroSum(c);
    NothingToLose(SumSq(Residual(c, idx, Sent(rnd, c, idx))), SumSq(c), |c|);
  }

  lemma WholeThirdSent(rnd: Rounding, c: Vec, idx: seq<int>, i: nat, n: int)
    requires Accurate(rnd, 0.0) && Inside(idx, |c|) && i < |idx| && Abs(c[idx[i]]) == AMax(Selected(c, idx))
    requires 1 <= n <= 2 && 3.0 * AMax(Selected(c, idx)) == n as real * FLOOR
    ensures Sent(rnd, c, idx)[i] == c[idx[i]]
  {
    ExactScale(rnd, Selected(c, idx));
    var x, s := c[idx[i]], FLOOR / 3.0;
    var v := SentReal(rnd, c, idx, i, x, s);
    WholeEntryExact(x, s, if x >= 0.0 then n else -n);
  }

  lemma WholeThirdContracts(rnd: Rounding, c: Vec, idx: seq<int>, k: nat, n: int)
    requires Accurate(rnd, 0.0) && IsTopK(c, idx, k) && k >= 1 && |c| >= 1
    requires 1 <= n <= 2 && 3.0 * AMax(c) == n as real * FLOOR
    ensures Contracts(rnd, c, idx)
  {
    var i := TopKHoldsMax(c, idx, k);
    WholeThirdSent(rnd, c, idx, i, n);
    SentNeverWorse(rnd, c, idx);
    MaxDrops(c, idx, Sent(rnd, c, idx), i, 0.0);
    MeanBelowMax(c);
    assert Square(0.0) == 0.0;
  }

  lemma GoodMagnitudeContracts(rnd: Rounding, c: Vec, idx: seq<int>, k: nat)
    requires Accurate(rnd, 0.0) && IsTopK(c, idx, k) && k >= 1 && |c| >= 1 && GoodMagnitude(AMax(c))
    ensures Contracts(rnd, c, idx)
  {
    if AMax(c) == 0.0 {
      ZeroChunkContracts(rnd, c, idx, k);
    } else if AMax(c) >= FLOOR {
      ChunkContraction(rnd, 0.0, c, idx, k);
    } else {
      WholeThirdContracts(rnd, c, idx, k, if 3.0 * AMax(c) == FLOOR then 1 else 2);
    }
  }

  lemma OneEntry(rnd: Rounding, m: real, s: real)
    requires m >= 0.0 && s == Scale(rnd, [m])
    ensures IsTopK([m], [0], 1) && AMax([m]) == m
    ensures Contracts(rnd, [m], [0]) ==> m == Quant(m, s) as real * s
  {
    var c: Vec := [m];
    assert Selected(c, [0]) == c;
    SentValue(rnd, c, [0], 0);
    ResidualAt(c, [0], Sent(rnd, c, [0]), 0);
    var r := Residual(c, [0], Sent(rnd, c, [0]));
    SumSqOne(r);
    SumSqOne(c);
    if Contracts(rnd, c, [0]) {
      ZeroSquare(r[0]);
    }
  }

  lemma SumSqOne(v: Vec)
    requires |v| == 1
    ensures SumSq(v) == Square(v[0])
  {
    assert SumSq(v[1..]) == 0.0;
  }

  lemma StrictProduct(a: real, b: real, p: real)
    requires a > 0.0 && b > 0.0 && p == a * b
    ensures p > 0.0
  {
  }

  lemma PositiveSquare(y: real)
    requires y > 0.0
    ensures Square(y) > 0.0
  {
    StrictProduct(y, y, Square(y));
  }

  lemma ZeroSquare(x: real)
    requires Square(x) <= 0.0
    ensures x == 0.0
  {
    if x != 0.0 {
      PositiveSquare(Abs(x));
      SquareMonotone(Abs(x), x);
    }
  }

  lemma BadMagnitudeStays(rnd: Rounding, m: real)
    requires Accurate(rnd, 0.0) && m >= 0.0 && !GoodMagnitude(m)
    ensures IsTopK([m], [0], 1) && AMax([m]) == m && !Contracts(rnd, [m], [0])
  {
    var s := Scale(rnd, [m]);
    OneEntry(rnd, m, s);
    ExactScale(rnd, [m]);
    if m == Quant(m, s) as real * s {
      WholeThirds(m, Quant(m, s));
    }
  }

  lemma WholeThirds(m: real, q: int)
    requires 0.0 <= m && m == q as real * (FLOOR / 3.0)
    ensures GoodMagnitude(m)
  {
    assert q <= 0 || q == 1 || q == 2 || q >= 3;
  }

  /**
   The floor is where contraction can fail: with exact scales, all chunks of largest magnitude `m`
   contract exactly when `m` is zero, at least the floor, or one or two thirds of it. Otherwise
   the chunk with the single entry `m` does not.
   */
  lemma FloorContractsIff(rnd: Rounding, m: real)
    requires Accurate(rnd, 0.0) && m >= 0.0
    ensures AlwaysContracts(rnd, m) <==> GoodMagnitude(m)
  {
    if GoodMagnitude(m) {
      forall c: Vec, idx, k | IsTopK(c, idx, k) && k >= 1 && |c| >= 1 && AMax(c) == m ensures Contracts(rnd, c, idx) {
        GoodMagnitudeContracts(rnd, c, idx, k);
      }
    } else {
      BadMagnitudeStays(rnd, m);
    }
  }

  // ------------------------------------------------------------------------
  // A selection always exists
  // ------------------------------------------------------------------------

  /** Places picked so far, extended by the largest of the rest. */
  lemma {:induction false} TopKExists(c: Vec, k: nat) returns (idx: seq<int>)
    requires k <= |c|
    ensures IsTopK(c, idx, k)
    decreases k
  {
    if k == 0 {
      idx := [];
    } else {
      var part := TopKExists(c, k - 1);
      var free := FreePlace(part, |c|);
      var best := LargestFree(c, part, free);
      idx := part + [best];
      forall i, j | 0 <= i < k && 0 <= j < |c| && j !in idx ensures Abs(c[j]) <= Abs(c[idx[i]]) {
        assert j !in part && j != best;
      }
    }
  }

  lemma FreePlace(idx: seq<int>, n: nat) returns (free: nat)
    requires |idx| < n
    ensures free < n && free !in idx
  {
    free := 0;
    var used: set<int> := {};
    while free < n && free in idx
      invariant free <= n && |used| == free
      invariant forall x :: x in used ==> x < free && x in idx
    {
      used := used + {free};
      free := free + 1;
    }
    if free == n {
      var places := set x | x in idx;
      MembersSize(idx);
      assert forall x :: x in used ==> x in places;
      SubsetSize(used, places);
    }
  }

  lemma {:induction false} MembersSize(idx: seq<int>)
    ensures |set x | x in idx| <= |idx|
    decreases |idx|
  {
    if idx != [] {
      MembersSize(idx[1..]);
      assert (set x | x in idx) == (set x | x in idx[1..]) + {idx[0]};
    }
  }

  lemma LargestFree(c: Vec, used: seq<int>, free: nat) returns (best: nat)
    requires free < |c| && free !in used
    ensures best < |c| && best !in used && forall j :: 0 <= j < |c| && j !in used ==> Abs(c[j]) <= Abs(c[best])
  {
    best := free;
    for j := 0 to |c|
      invariant best < |c| && best !in used
      invariant forall l :: 0 <= l < j && l !in used ==> Abs(c[l]) <= Abs(c[best])
    {
      if j !in used && Abs(c[j]) > Abs(c[best]) {
        best := j;
      }
    }
  }

  /** The number of places kept, rounded to even and at least one, fits the chunk for every density up to one. */
  function KeepCount(chunk: nat, density: real): int
  {
    var k := Round(chunk as real * density);
    if k < 1 then 1 else k
  }

  lemma KeepCountFits(chunk: nat, density: real)
    requires chunk >= 1 && 0.0 <= density <= 1.0
    ensures 1 <= KeepCount(chunk, density) <= chunk
  {
    var x := chunk as real * density;
    assert 0.0 <= x <= chunk as real by {
      MulMonotone(0.0, density, chunk as real);
      MulMonotone(density, 1.0, chunk as real);
    }
    RoundWithin(x, chunk);
  }

  /** More than one place is kept only where that is the nearest number to the density's share of the chunk. */
  lemma KeepCountNearest(chunk: nat, density: real)
    ensures var k, share := KeepCount(chunk, density), chunk as real * density;
            k >= 1 && (k > 1 ==> Abs(share - k as real) <= 0.5) && (k == 1 ==> share <= 1.5)
  {
    RoundNearest(chunk as real * density);
  }
}
