/**
 Chunks below the scale floor, for a given chunk size and number of places kept: the exact magnitudes
 at which every chunk is contracted. There the scale no longer follows the chunk, and what
 is left of an entry is bounded by half a scale only.
 */
module ChunkFloor {
  import opened Common
  import opened Reals
  import opened Quantizer

  // ------------------------------------------------------------------------
  // Sums entry by entry
  // ------------------------------------------------------------------------

  function SumOf(v: Vec): real { if v == [] then 0.0 else v[0] + SumOf(v[1..]) }

  function Const(n: nat, b: real): (v: Vec)
    ensures |v| == n && forall i :: 0 <= i < n ==> v[i] == b
  {
    seq(n, i => b)
  }

  lemma {:induction false} SumOfConst(n: nat, b: real)
    ensures SumOf(Const(n, b)) == n as real * b
  {
    if n > 0 {
      SumOfConst(n - 1, b);
      assert Const(n, b)[1..] == Const(n - 1, b);
    }
  }

  lemma {:induction false} SumOfUpdate(v: Vec, j: nat, x: real)
    requires j < |v|
    ensures SumOf(v[j := x]) == SumOf(v) - v[j] + x
    decreases |v|
  {
    if j > 0 {
      SumOfUpdate(v[1..], j - 1, x);
      assert v[j := x][1..] == v[1..][j - 1 := x];
    } else {
      assert v[j := x][1..] == v[1..];
    }
  }

  lemma {:induction false} SumSqConst(n: nat, y: real)
    ensures SumSq(Const(n, y)) == n as real * Square(y)
  {
    if n > 0 {
      SumSqConst(n - 1, y);
      assert Const(n, y)[1..] == Const(n - 1, y);
      OneMoreSquare(n, Square(y));
    }
  }

  lemma OneMoreSquare(n: nat, q: real)
    requires n > 0
    ensures q + (n - 1) as real * q == n as real * q
  {
  }

  function Squares(v: Vec): (r: Vec)
    ensures |r| == |v|
  {
    seq(|v|, i requires 0 <= i < |v| => Square(v[i]))
  }

  /** The share `a` of every square. */
  function Shares(a: real, v: Vec): (r: Vec)
    ensures |r| == |v|
  {
    seq(|v|, i requires 0 <= i < |v| => Share(a, v[i]))
  }

  function Share(a: real, x: real): real { a * Square(x) }

  lemma {:induction false} SumOfSquares(v: Vec)
    ensures SumOf(Squares(v)) == SumSq(v)
    decreases |v|
  {
    if v != [] {
      SumOfSquares(v[1..]);
      assert Squares(v)[1..] == Squares(v[1..]);
    }
  }

  lemma {:induction false} SumOfShares(a: real, v: Vec)
    ensures SumOf(Shares(a, v)) == a * SumSq(v)
    decreases |v|
  {
    if v != [] {
      SumOfShares(a, v[1..]);
      assert Shares(a, v)[1..] == Shares(a, v[1..]);
      Distribute(a, Square(v[0]), SumSq(v[1..]), SumSq(v));
    } else {
      Distribute(a, 0.0, 0.0, 0.0);
    }
  }

  lemma Distribute(a: real, p: real, q: real, t: real)
    requires t == p + q
    ensures a * t == a * p + a * q
  {
  }

  predicate AllWithin(u: Vec, w: Vec, bs: Vec)
  {
    |u| == |w| == |bs| && forall j :: 0 <= j < |u| ==> u[j] <= w[j] + bs[j]
  }

  lemma {:induction false} SumOfWithin(u: Vec, w: Vec, bs: Vec)
    requires AllWithin(u, w, bs)
    ensures SumOf(u) <= SumOf(w) + SumOf(bs)
    decreases |u|
  {
    if u != [] {
      SumOfWithin(u[1..], w[1..], bs[1..]);
    }
  }

  /** Bounds that are the same everywhere but at one place, or at two. */
  lemma OnePlaceApart(u: Vec, w: Vec, b: real, p: nat, bp: real)
    requires |u| == |w| && p < |u| && u[p] <= w[p] + bp
    requires forall j :: 0 <= j < |u| && j != p ==> u[j] <= w[j] + b
    ensures SumOf(u) <= SumOf(w) + (SumOf(Const(|u|, b)) - b + bp)
  {
    SumOfWithin(u, w, Const(|u|, b)[p := bp]);
    SumOfUpdate(Const(|u|, b), p, bp);
  }

  lemma TwoPlacesApart(u: Vec, w: Vec, b: real, p: nat, bp: real, o: nat, bo: real)
    requires |u| == |w| && p < |u| && o < |u| && p != o && u[p] <= w[p] + bp && u[o] <= w[o] + bo
    requires forall j :: 0 <= j < |u| && j != p && j != o ==> u[j] <= w[j] + b
    ensures SumOf(u) <= SumOf(w) + (SumOf(Const(|u|, b)) - b + bp - b + bo)
  {
    var bs := Const(|u|, b)[p := bp];
    SumOfWithin(u, w, bs[o := bo]);
    SumOfUpdate(bs, o, bo);
    SumOfUpdate(Const(|u|, b), p, bp);
  }

  // ------------------------------------------------------------------------
  // What each entry leaves
  // ------------------------------------------------------------------------

  /** Of a selected entry at most the entry and at most half a scale is left. */
  lemma SelectedShare(rr: real, xx: real, q: real, a: real, h: real, ax: real, hq: real)
    requires rr <= xx && rr <= q && a >= 0.0 && h >= 0.0 && a + h == 1.0 && ax == a * xx && hq == h * q
    ensures rr <= ax + hq
  {
    var p1, p2 := a * rr, h * rr;
    assert p1 + p2 == rr by {
      Distribute(rr, a, h, 1.0);
    }
    MulOrder(rr, xx, a, p1, ax);
    MulOrder(rr, q, h, p2, hq);
  }

  lemma MulOrder(x: real, y: real, k: real, kx: real, ky: real)
    requires x <= y && k >= 0.0 && kx == k * x && ky == k * y
    ensures kx <= ky
  {
    MulMonotone(x, y, k);
  }

  /** The residual of a chunk whose scale is `s`, as far as the bound needs it. */
  ghost predicate LeftAt(c: Vec, idx: seq<int>, r: Vec, s: real)
  {
    && |r| == |c| && Inside(idx, |c|)
    && (forall j :: 0 <= j < |c| && j !in idx ==> r[j] == c[j])
    && (forall j :: 0 <= j < |c| && j in idx ==> Abs(r[j]) <= Abs(c[j]) && 2.0 * Abs(r[j]) <= s)
  }

  /** What is left of an entry sent at scale `s`. */
  predicate LeftOf(x: real, s: real, left: real)
    requires s > 0.0
  {
    left == x - Quant(x, s) as real * s
  }

  lemma ClosestUnit(y: real)
    requires Abs(y) <= 3.0
    ensures Abs(y - Clamp(Round(y), -3, 3) as real) <= 0.5
  {
    RoundWithin(y, 3);
    RoundNearest(y);
  }

  lemma ScaledHalf(y: real, q: real, s: real, x: real, v: real)
    requires s > 0.0 && x == y * s && v == q * s && Abs(y - q) <= 0.5
    ensures 2.0 * Abs(x - v) <= s
  {
    assert x - v == (y - q) * s;
    ScaledAbs(y - q, 0.5, s, x - v, 0.5 * s);
  }

  lemma ClosestWithin(x: real, s: real, left: real)
    requires s > 0.0 && Abs(x) <= 3.0 * s && LeftOf(x, s, left)
    ensures Abs(left) <= Abs(x) && 2.0 * Abs(left) <= s
  {
    QuotientBound(x, s, 3.0);
    ClosestUnit(x / s);
    ScaledHalf(x / s, Quant(x, s) as real, s, x, x - left);
    EntryResidual(x, s, x - left);
  }

  lemma LeftIs(rnd: Rounding, c: Vec, idx: seq<int>, i: nat, s: real, x: real, r: Vec)
    requires Inside(idx, |c|) && Distinct(idx) && i < |idx| && x == c[idx[i]] && s == Scale(rnd, Selected(c, idx))
    requires r == Residual(c, idx, Sent(rnd, c, idx))
    ensures LeftOf(x, s, r[idx[i]])
  {
    var v := SentReal(rnd, c, idx, i, x, s);
    ResidualAt(c, idx, Sent(rnd, c, idx), i);
  }

  lemma SelectedLeft(rnd: Rounding, c: Vec, idx: seq<int>, s: real, i: nat, r: Vec)
    requires Inside(idx, |c|) && Distinct(idx) && s == Scale(rnd, Selected(c, idx)) && AMax(c) <= 3.0 * s
    requires i < |idx| && r == Residual(c, idx, Sent(rnd, c, idx))
    ensures Abs(r[idx[i]]) <= Abs(c[idx[i]]) && 2.0 * Abs(r[idx[i]]) <= s
  {
    LeftIs(rnd, c, idx, i, s, c[idx[i]], r);
    ClosestWithin(c[idx[i]], s, r[idx[i]]);
  }

  lemma ResidualLeft(rnd: Rounding, c: Vec, idx: seq<int>, s: real, r: Vec)
    requires Inside(idx, |c|) && Distinct(idx) && s == Scale(rnd, Selected(c, idx)) && AMax(c) <= 3.0 * s
    requires r == Residual(c, idx, Sent(rnd, c, idx))
    ensures LeftAt(c, idx, r, s)
  {
    forall j | 0 <= j < |c| && j in idx ensures Abs(r[j]) <= Abs(c[j]) && 2.0 * Abs(r[j]) <= s {
      var i :| 0 <= i < |idx| && idx[i] == j;
      SelectedLeft(rnd, c, idx, s, i, r);
    }
    forall j | 0 <= j < |c| && j !in idx ensures r[j] == c[j] {
      ScatterElsewhere(|c|, idx, Sent(rnd, c, idx), j);
    }
  }

  // ------------------------------------------------------------------------
  // Two selected entries carry the rest
  // ------------------------------------------------------------------------

  lemma SquareOfHalf(r: real, s: real, q: real)
    requires s > 0.0 && 2.0 * Abs(r) <= s && q == Square(0.5 * s)
    ensures Square(r) <= q
  {
    SquareMonotone(r, 0.5 * s);
  }

  /** An entry leaves at most its share `a` and `h` times `z`. */
  lemma EntryBelow(c: Vec, idx: seq<int>, r: Vec, s: real, a: real, h: real, q: real, z: real, b: real, j: nat)
    requires LeftAt(c, idx, r, s) && j < |c| && s > 0.0 && q == Square(0.5 * s) && q <= z
    requires a >= 0.0 && h >= 0.0 && a + h == 1.0 && b == h * z
    requires j !in idx ==> Square(c[j]) <= z
    ensures Squares(r)[j] <= Shares(a, c)[j] + b
  {
    var rr, xx := Square(r[j]), Square(c[j]);
    if j in idx {
      SquareMonotone(r[j], c[j]);
      SquareOfHalf(r[j], s, q);
    }
    SelectedShare(rr, xx, z, a, h, Shares(a, c)[j], b);
  }

  /** With `h` one over the length, the constant bounds add up to one of them. */
  lemma FullShare(n: nat, h: real, z: real, b: real)
    requires h * n as real == 1.0 && b == h * z
    ensures SumOf(Const(n, b)) == z
  {
    SumOfConst(n, b);
    var m := n as real;
    assert m * b == h * m * z;
  }

  /** The share `a` of a chunk's squares, and of each entry. */
  ghost predicate Split(c: Vec, a: real, h: real) { a >= 0.0 && h >= 0.0 && a + h == 1.0 && h * |c| as real == 1.0 }

  /** What a chunk leaves, when no entry that is not selected exceeds half a scale. */
  lemma SmallRest(c: Vec, idx: seq<int>, r: Vec, s: real, a: real, h: real, q: real, hq: real, p: nat, bp: real)
    requires LeftAt(c, idx, r, s) && s > 0.0 && q == Square(0.5 * s) && Split(c, a, h) && hq == h * q
    requires p < |c| && Squares(r)[p] <= Shares(a, c)[p] + bp
    requires forall j :: 0 <= j < |c| && j !in idx ==> Square(c[j]) <= q
    ensures SumOf(Squares(r)) <= SumOf(Shares(a, c)) + (bp + q - hq)
  {
    forall j | 0 <= j < |c| && j != p ensures Squares(r)[j] <= Shares(a, c)[j] + hq {
      EntryBelow(c, idx, r, s, a, h, q, q, hq, j);
    }
    OnePlaceApart(Squares(r), Shares(a, c), hq, p, bp);
    FullShare(|c|, h, q, hq);
  }

  lemma OwnBound(z: real, a: real, h: real, az: real, hz: real)
    requires a + h == 1.0 && az == a * z && hz == h * z
    ensures az + hz == z
  {
    Distribute(z, a, h, 1.0);
  }

  /** When some do, a second selected entry exceeds them, and makes up for them all. */
  lemma LargeRest(c: Vec, idx: seq<int>, r: Vec, s: real, a: real, h: real, q: real, hq: real, p: nat, bp: real,
                  o: nat, z: real, hz: real)
    requires LeftAt(c, idx, r, s) && s > 0.0 && q == Square(0.5 * s) && Split(c, a, h) && hq == h * q
    requires p < |c| && Squares(r)[p] <= Shares(a, c)[p] + bp
    requires o < |c| && p != o && o in idx && z == Square(c[o]) && z >= q && hz == h * z
    requires forall j :: 0 <= j < |c| && j !in idx ==> Square(c[j]) <= z
    ensures SumOf(Squares(r)) <= SumOf(Shares(a, c)) + (bp + q - hq)
  {
    forall j | 0 <= j < |c| && j != p && j != o ensures Squares(r)[j] <= Shares(a, c)[j] + hz {
      EntryBelow(c, idx, r, s, a, h, q, z, hz, j);
    }
    var az := Shares(a, c)[o];
    SquareOfHalf(r[o], s, q);
    OwnBound(z, a, h, az, hz);
    MulOrder(q, z, h, hq, hz);
    FullShare(|c|, h, z, hz);
    LargeSum(Squares(r), Shares(a, c), hz, p, bp, o, q, z, az, hq);
  }

  lemma LargeSum(u: Vec, w: Vec, hz: real, p: nat, bp: real, o: nat, q: real, z: real, az: real, hq: real)
    requires |u| == |w| && p < |u| && o < |u| && p != o && u[p] <= w[p] + bp && u[o] <= q && w[o] == az
    requires forall j :: 0 <= j < |u| && j != p && j != o ==> u[j] <= w[j] + hz
    requires SumOf(Const(|u|, hz)) == z && az + hz == z && hq <= hz
    ensures SumOf(u) <= SumOf(w) + (bp + q - hq)
  {
    TwoPlacesApart(u, w, hz, p, bp, o, q - az);
  }

  // ------------------------------------------------------------------------
  // When two or more places are kept
  // ------------------------------------------------------------------------

  /** The largest entry `m` gives up enough to pay for a rest of half scales; `n` is the chunk size. */
  predicate Enough(n: real, m: real, s: real)
  {
    4.0 * n * (2.0 * (m * s) - s * s) >= 4.0 * (m * m) + (n - 1.0) * (s * s)
  }

  /** An entry between half a scale and one and a half is sent as one scale. */
  lemma RoundsToOne(x: real, s: real)
    requires s > 0.0 && 0.5 * s < Abs(x) < 1.5 * s
    ensures Quant(x, s) == if x >= 0.0 then 1 else -1
  {
    var y := x / s;
    Quotient(x, s);
    AbsProduct(y, s, x);
    FactorBounds(Abs(y), s, Abs(x), 0.5, 1.5);
    SameSign(x, y, s);
    RoundNearest(y);
  }

  lemma PairArith(n: real, a: real, h: real, mm: real, ms: real, ss: real)
    requires n >= 2.0 && h * n == 1.0 && a + h == 1.0
    requires 4.0 * n * (2.0 * ms - ss) >= 4.0 * mm + (n - 1.0) * ss
    ensures mm - 2.0 * ms + ss - a * mm + a * (0.25 * ss) <= 0.0
  {
    var e := mm - 2.0 * ms + ss - a * mm + a * (0.25 * ss);
    assert n * a == n - 1.0;
    assert n * e == n * (mm - 2.0 * ms + ss) - n * a * mm + n * a * (0.25 * ss);
    assert n * e <= 0.0;
    if e > 0.0 {
      StrictProduct(n, e, n * e);
    }
  }

  lemma BigArith(a: real, mm: real, q: real, left: real)
    requires a >= 0.5 && q >= 0.0 && mm >= 9.0 * q && left <= q
    ensures left - a * mm + a * q <= 0.0
  {
    MulMonotone(8.0 * q, mm - q, a);
    MulMonotone(0.5, a, 8.0 * q);
  }

  /** What is left of the largest entry, less its share, with the rest's half scale. */
  lemma LargestPays(n: real, a: real, h: real, x: real, m: real, s: real, r: real, q: real)
    requires n >= 2.0 && h * n == 1.0 && a + h == 1.0 && s > 0.0 && Abs(x) == m && q == Square(0.5 * s)
    requires LeftOf(x, s, r) && 2.0 * Abs(r) <= s && 2.0 * m > s && Enough(n, m, s)
    ensures Square(r) - Share(a, x) + a * q <= 0.0
  {
    SquareOfHalf(r, s, q);
    SquareIs(x, m);
    if m < 1.5 * s {
      RoundsToOne(x, s);
      SquareIs(r, m - s);
      Squared(m, s);
      PairArith(n, a, h, m * m, m * s, s * s);
      assert q == 0.25 * (s * s);
    } else {
      NineTimes(m, s, q);
      HalfShare(n, a, h);
      BigArith(a, Square(m), q, Square(r));
    }
  }

  lemma SquareIs(x: real, m: real)
    requires Abs(x) == Abs(m)
    ensures Square(x) == Square(m)
  {
    SquareMonotone(x, m);
    SquareMonotone(m, x);
  }

  lemma Squared(m: real, s: real)
    ensures Square(m - s) == m * m - 2.0 * (m * s) + s * s
  {
  }

  lemma NineTimes(m: real, s: real, q: real)
    requires s > 0.0 && m >= 1.5 * s && q == Square(0.5 * s)
    ensures Square(m) >= 9.0 * q
  {
    NonNegativeSquares(1.5 * s, m);
  }

  lemma HalfShare(n: real, a: real, h: real)
    requires n >= 2.0 && h * n == 1.0 && a + h == 1.0
    ensures a >= 0.5
  {
    if h > 0.5 {
      StrictProduct(h - 0.5, n, (h - 0.5) * n);
    }
  }

  /** One over the size of the chunk, and the rest. */
  lemma Shared(c: Vec) returns (a: real, h: real)
    requires |c| >= 1
    ensures Split(c, a, h) && a * SumSq(c) == SumSq(c) - SumSq(c) / |c| as real
  {
    var n := |c| as real;
    h := 1.0 / n;
    a := 1.0 - h;
    assert h * n == 1.0;
    assert 0.0 <= h <= 1.0 by {
      if h > 1.0 {
        StrictProduct(h - 1.0, n, (h - 1.0) * n);
      }
      if h < 0.0 {
        StrictProduct(-h, n, (-h) * n);
      }
    }
    Quotients(SumSq(c), n, h, a);
  }

  lemma Quotients(t: real, n: real, h: real, a: real)
    requires n >= 1.0 && h == 1.0 / n && a == 1.0 - h
    ensures a * t == t - t / n
  {
    var d := t / n;
    assert d * n == t && h * n == 1.0;
    assert (h * t - d) * n == 0.0;
  }

  /** Another selected place than the first one found. */
  lemma SecondPlace(idx: seq<int>, i: nat) returns (l: nat)
    requires |idx| >= 2 && i < |idx| && Distinct(idx)
    ensures l < |idx| && l != i && idx[l] != idx[i]
  {
    l := if i == 0 then 1 else 0;
  }

  lemma RestBelow(c: Vec, idx: seq<int>, k: nat, l: nat, z: real)
    requires IsTopK(c, idx, k) && l < k && z == Square(c[idx[l]])
    ensures forall j :: 0 <= j < |c| && j !in idx ==> Square(c[j]) <= z
  {
    forall j | 0 <= j < |c| && j !in idx ensures Square(c[j]) <= z {
      SquareMonotone(c[j], c[idx[l]]);
    }
  }

  /** The bound on what is left, from the largest entry and one more selected. */
  lemma LeftBelow(c: Vec, idx: seq<int>, k: nat, r: Vec, s: real, a: real, h: real, q: real, hq: real, i: nat, bp: real)
    requires IsTopK(c, idx, k) && k >= 2 && i < k && LeftAt(c, idx, r, s) && s > 0.0 && q == Square(0.5 * s)
    requires Split(c, a, h) && hq == h * q && bp == Squares(r)[idx[i]] - Shares(a, c)[idx[i]]
    ensures SumOf(Squares(r)) <= SumOf(Shares(a, c)) + (bp + q - hq)
  {
    var l := SecondPlace(idx, i);
    var z := Square(c[idx[l]]);
    RestBelow(c, idx, k, l, z);
    if z <= q {
      SmallRest(c, idx, r, s, a, h, q, hq, idx[i], bp);
    } else {
      LargeRest(c, idx, r, s, a, h, q, hq, idx[i], bp, idx[l], z, h * z);
    }
  }

  lemma BelowFloor(rnd: Rounding, c: Vec, idx: seq<int>, k: nat, s: real)
    requires Accurate(rnd, 0.0) && IsTopK(c, idx, k) && k >= 1 && AMax(c) < FLOOR && s == FLOOR / 3.0
    ensures Scale(rnd, Selected(c, idx)) == s
  {
    ExactScale(rnd, Selected(c, idx));
    var i := TopKHoldsMax(c, idx, k);
  }

  lemma HalfIsNotEnough(n: real, m: real, s: real)
    requires n >= 2.0 && 0.0 <= m && s > 0.0 && 2.0 * m <= s
    ensures !Enough(n, m, s)
  {
    var ms, ss, mm := m * s, s * s, m * m;
    MulMonotone(2.0 * m, s, s);
    StrictProduct(s, s, ss);
    MulMonotone(2.0 * ms - ss, 0.0, 4.0 * n);
    MulMonotone(1.0, n - 1.0, ss);
    MulMonotone(0.0, m, m);
  }

  /** The largest entry and what is left of it. */
  lemma LargestLeft(rnd: Rounding, c: Vec, idx: seq<int>, k: nat, s: real, r: Vec) returns (i: nat)
    requires IsTopK(c, idx, k) && k >= 1 && s == Scale(rnd, Selected(c, idx))
    requires r == Residual(c, idx, Sent(rnd, c, idx))
    ensures i < k && Abs(c[idx[i]]) == AMax(c) && LeftOf(c[idx[i]], s, r[idx[i]])
  {
    i := TopKHoldsMax(c, idx, k);
    LeftIs(rnd, c, idx, i, s, c[idx[i]], r);
  }

  lemma PaysForRest(c: Vec, idx: seq<int>, k: nat, r: Vec, s: real, i: nat, a: real, h: real)
    requires IsTopK(c, idx, k) && k >= 2 && i < k && LeftAt(c, idx, r, s) && s > 0.0 && |c| >= 2 && Split(c, a, h)
    requires LeftOf(c[idx[i]], s, r[idx[i]]) && Enough(|c| as real, Abs(c[idx[i]]), s)
    ensures SumOf(Squares(r)) <= SumOf(Shares(a, c))
  {
    var x, q := c[idx[i]], Square(0.5 * s);
    if 2.0 * Abs(x) <= s {
      HalfIsNotEnough(|c| as real, Abs(x), s);
    }
    LargestPays(|c| as real, a, h, x, Abs(x), s, r[idx[i]], q);
    OwnBound(q, a, h, a * q, h * q);
    LeftBelow(c, idx, k, r, s, a, h, q, h * q, i, Squares(r)[idx[i]] - Shares(a, c)[idx[i]]);
  }

  /** Below the floor every chunk contracts whose largest entry gives up enough. */
  lemma EnoughContracts(rnd: Rounding, c: Vec, idx: seq<int>, k: nat, s: real)
    requires Accurate(rnd, 0.0) && IsTopK(c, idx, k) && k >= 2 && |c| >= 2
    requires AMax(c) < FLOOR && s == FLOOR / 3.0 && Enough(|c| as real, AMax(c), s)
    ensures Contracts(rnd, c, idx)
  {
    var r := Residual(c, idx, Sent(rnd, c, idx));
    BelowFloor(rnd, c, idx, k, s);
    ResidualLeft(rnd, c, idx, s, r);
    var i := LargestLeft(rnd, c, idx, k, s, r);
    var a, h := Shared(c);
    PaysForRest(c, idx, k, r, s, i, a, h);
    SumOfSquares(r);
    SumOfShares(a, c);
  }

  // ------------------------------------------------------------------------
  // The chunks that fail
  // ------------------------------------------------------------------------

  /** One entry `m` and a rest of equal entries `y`. */
  function Front(n: nat, m: real, y: real): (c: Vec)
    requires n >= 1
    ensures |c| == n && c[0] == m && forall j :: 0 < j < n ==> c[j] == y
  {
    [m] + Const(n - 1, y)
  }

  /** The squares of the rest. */
  function Rest(w: real, y: real): real { (w - 1.0) * Square(y) }

  lemma FrontSum(n: nat, m: real, y: real)
    requires n >= 1
    ensures SumSq(Front(n, m, y)) == Square(m) + Rest(n as real, y)
  {
    assert Front(n, m, y)[1..] == Const(n - 1, y);
    SumSqConst(n - 1, y);
  }

  function First(k: nat): (idx: seq<int>)
    ensures |idx| == k && forall i :: 0 <= i < k ==> idx[i] == i
  {
    seq(k, i => i)
  }

  lemma FrontTopK(n: nat, k: nat, m: real, y: real)
    requires 1 <= k <= n && 0.0 <= y <= m
    ensures IsTopK(Front(n, m, y), First(k), k) && AMax(Front(n, m, y)) == m
  {
    var c, idx := Front(n, m, y), First(k);
    var i := AMaxAttained(c);
    assert Abs(c[0]) <= AMax(c) && Abs(c[i]) <= m;
    assert forall j :: 0 <= j < k ==> idx[j] == j && j in idx;
  }

  /** What is left of such a chunk, if the rest is not sent or not selected. */
  lemma FrontLeft(rnd: Rounding, n: nat, k: nat, m: real, y: real, s: real, left: real)
    requires 1 <= k <= n && 0.0 <= y <= m && s > 0.0 && (k == 1 || 2.0 * y <= s) && LeftOf(m, s, left)
    requires Inside(First(k), n) && s == Scale(rnd, Selected(Front(n, m, y), First(k)))
    ensures var c, idx := Front(n, m, y), First(k);
            Residual(c, idx, Sent(rnd, c, idx)) == Front(n, left, y)
  {
    var c, idx := Front(n, m, y), First(k);
    var r := Residual(c, idx, Sent(rnd, c, idx));
    forall j | 0 <= j < n ensures r[j] == if j == 0 then left else y {
      if j < k {
        LeftIs(rnd, c, idx, j, s, c[j], r);
        if j > 0 {
          ZeroEntryIff(y, s);
        }
      } else {
        ScatterElsewhere(n, idx, Sent(rnd, c, idx), j);
      }
    }
  }

  /** The squares of what is left and of the chunk, for a front and a rest. */
  predicate FrontFits(w: real, left: real, m: real, rest: real)
    requires w >= 1.0
  {
    left + rest <= (m + rest) - (m + rest) / w
  }

  lemma SumsFit(r: Vec, c: Vec, n: nat, left: real, m: real, rest: real)
    requires n >= 1 && SumSq(r) <= SumSq(c) - SumSq(c) / n as real
    requires SumSq(r) == left + rest && SumSq(c) == m + rest
    ensures FrontFits(n as real, left, m, rest)
  {
  }

  /** The chunk contracts only if its front does, with the rest's share. */
  lemma FrontContracts(rnd: Rounding, n: nat, k: nat, m: real, y: real, s: real, left: real)
    requires 1 <= k <= n && 0.0 <= y <= m && s > 0.0 && (k == 1 || 2.0 * y <= s)
    requires Inside(First(k), n) && s == Scale(rnd, Selected(Front(n, m, y), First(k)))
    requires LeftOf(m, s, left) && Contracts(rnd, Front(n, m, y), First(k))
    ensures FrontFits(n as real, Square(left), Square(m), Rest(n as real, y))
  {
    var c, idx := Front(n, m, y), First(k);
    var r := Residual(c, idx, Sent(rnd, c, idx));
    FrontLeft(rnd, n, k, m, y, s, left);
    FrontSum(n, m, y);
    FrontSum(n, left, y);
    SumsFit(r, c, n, Square(left), Square(m), Rest(n as real, y));
  }

  // ------------------------------------------------------------------------
  // The exact condition
  // ------------------------------------------------------------------------

  /** Every chunk of `n` entries with largest magnitude `m` contracts when `k` places are kept. */
  ghost predicate ContractsAt(rnd: Rounding, n: nat, k: nat, m: real)
    requires n >= 1
  {
    forall c: Vec, idx {:trigger IsTopK(c, idx, k)} ::
      |c| == n && IsTopK(c, idx, k) && AMax(c) == m ==> Contracts(rnd, c, idx)
  }

  /** With one place kept, zero, the floor and its thirds; with more, also all that gives up enough. */
  predicate GoodAt(n: nat, k: nat, m: real)
  {
    if k == 1 then GoodMagnitude(m) else m == 0.0 || m >= FLOOR || Enough(n as real, m, FLOOR / 3.0)
  }

  lemma GoodContracts(rnd: Rounding, n: nat, k: nat, c: Vec, idx: seq<int>)
    requires Accurate(rnd, 0.0) && 1 <= k <= n && |c| == n && IsTopK(c, idx, k) && GoodAt(n, k, AMax(c))
    ensures Contracts(rnd, c, idx)
  {
    if k == 1 || AMax(c) == 0.0 || AMax(c) >= FLOOR {
      GoodMagnitudeContracts(rnd, c, idx, k);
    } else {
      EnoughContracts(rnd, c, idx, k, FLOOR / 3.0);
    }
  }

  /** Equal entries, of which one is sent: contracted only if that one is sent exactly. */
  lemma OnlyOneFails(n: nat, m: real, left: real)
    requires n >= 1 && FrontFits(n as real, Square(left), Square(m), Rest(n as real, m))
    ensures left == 0.0
  {
    EqualShare(n as real, Square(m));
    ZeroSquare(left);
  }

  lemma EqualShare(w: real, mm: real)
    requires w >= 1.0
    ensures (mm + (w - 1.0) * mm) / w == mm
  {
    assert mm + (w - 1.0) * mm == w * mm;
  }

  lemma NothingSentFails(w: real, mm: real, left: real)
    requires w >= 1.0 && mm > 0.0 && left == mm
    ensures !FrontFits(w, left, mm, (w - 1.0) * mm)
  {
    EqualShare(w, mm);
  }

  lemma OneSentFails(w: real, m: real, s: real)
    requires w >= 2.0 && s > 0.0 && !Enough(w, m, s)
    ensures !FrontFits(w, Square(m - s), Square(m), Rest(w, 0.5 * s))
  {
    Squared(m, s);
    FailArith(w, m * m, m * s, s * s);
    assert Square(0.5 * s) == 0.25 * (s * s);
  }

  lemma ManyFail(w: real, m: real, s: real, y: real, left: real)
    requires w >= 2.0 && 0.0 < m < 3.0 * s && !Enough(w, m, s)
    requires y == (if 2.0 * m <= s then m else 0.5 * s) && LeftOf(m, s, left)
    ensures !FrontFits(w, Square(left), Square(m), Rest(w, y))
  {
    ZeroEntryIff(m, s);
    if 2.0 * m <= s {
      PositiveSquare(m);
      NothingSentFails(w, Square(m), Square(left));
    } else {
      if m >= 1.5 * s {
        MuchIsEnough(w, m, s);
      }
      RoundsToOne(m, s);
      OneSentFails(w, m, s);
    }
  }

  /** From one and a half scales on, an entry gives up enough. */
  lemma MuchIsEnough(w: real, m: real, s: real)
    requires w >= 2.0 && s > 0.0 && 1.5 * s <= m < 3.0 * s
    ensures Enough(w, m, s)
  {
    var mm, ms, ss := m * m, m * s, s * s;
    ProductFacts(m, s, mm, ms, ss);
    MuchArith(w, mm, ms, ss);
  }

  lemma MuchArith(w: real, mm: real, ms: real, ss: real)
    requires w >= 2.0 && 8.0 * ms - 5.0 * ss >= 0.0 && 2.0 * (8.0 * ms - 5.0 * ss) + ss >= 4.0 * mm
    ensures 4.0 * w * (2.0 * ms - ss) >= 4.0 * mm + (w - 1.0) * ss
  {
    var d := 8.0 * ms - 5.0 * ss;
    MulMonotone(2.0, w, d);
    assert 4.0 * w * (2.0 * ms - ss) - (w - 1.0) * ss == w * d + ss;
  }

  lemma ProductFacts(m: real, s: real, mm: real, ms: real, ss: real)
    requires s > 0.0 && 1.5 * s <= m < 3.0 * s && mm == m * m && ms == m * s && ss == s * s
    ensures 8.0 * ms - 5.0 * ss >= 0.0 && 2.0 * (8.0 * ms - 5.0 * ss) + ss >= 4.0 * mm
  {
    MulMonotone(1.5 * s, m, s);
    MulMonotone(m, 3.0 * s, s);
    var u, v := m - 1.5 * s, 3.0 * s - m;
    MulMonotone(0.0, u, v);
    assert u * v == 4.5 * ms - mm - 4.5 * ss;
  }

  lemma FailArith(w: real, mm: real, ms: real, ss: real)
    requires w >= 2.0 && 4.0 * w * (2.0 * ms - ss) < 4.0 * mm + (w - 1.0) * ss
    ensures var rest := (w - 1.0) * (0.25 * ss);
            mm - 2.0 * ms + ss + rest > (mm + rest) - (mm + rest) / w
  {
    var rest := (w - 1.0) * (0.25 * ss);
    var d := (mm + rest) / w;
    assert d * w == mm + rest;
    var e := ss - 2.0 * ms + d;
    assert w * e == w * (ss - 2.0 * ms) + mm + rest;
    assert w * e > 0.0;
    if e <= 0.0 {
      MulMonotone(e, 0.0, w);
    }
  }

  lemma UnfitFails(rnd: Rounding, n: nat, k: nat, m: real, y: real, s: real, left: real)
    requires 1 <= k <= n && 0.0 <= y <= m && s > 0.0 && (k == 1 || 2.0 * y <= s)
    requires Inside(First(k), n) && s == Scale(rnd, Selected(Front(n, m, y), First(k)))
    requires LeftOf(m, s, left) && !FrontFits(n as real, Square(left), Square(m), Rest(n as real, y))
    ensures !Contracts(rnd, Front(n, m, y), First(k))
  {
    if Contracts(rnd, Front(n, m, y), First(k)) {
      FrontContracts(rnd, n, k, m, y, s, left);
    }
  }

  lemma OneUnfit(n: nat, m: real, s: real, left: real)
    requires n >= 1 && 0.0 <= m && s == FLOOR / 3.0 && LeftOf(m, s, left) && !GoodMagnitude(m)
    ensures !FrontFits(n as real, Square(left), Square(m), Rest(n as real, m))
  {
    if FrontFits(n as real, Square(left), Square(m), Rest(n as real, m)) {
      OnlyOneFails(n, m, left);
      WholeThirds(m, Quant(m, s));
    }
  }

  /** The entry of the rest with which the magnitude fails. */
  lemma UnfitRest(n: nat, k: nat, m: real, s: real) returns (y: real, left: real)
    requires 1 <= k <= n && m >= 0.0 && !GoodAt(n, k, m) && s == FLOOR / 3.0
    ensures 0.0 <= y <= m < FLOOR && (k == 1 || 2.0 * y <= s) && LeftOf(m, s, left)
    ensures !FrontFits(n as real, Square(left), Square(m), Rest(n as real, y))
  {
    y := if k == 1 || 2.0 * m <= s then m else 0.5 * s;
    left := m - Quant(m, s) as real * s;
    if k == 1 {
      OneUnfit(n, m, s, left);
    } else {
      ManyFail(n as real, m, s, y, left);
    }
  }

  lemma BadFails(rnd: Rounding, n: nat, k: nat, m: real, y: real, s: real, left: real)
    requires Accurate(rnd, 0.0) && 1 <= k <= n && s == FLOOR / 3.0 && LeftOf(m, s, left)
    requires 0.0 <= y <= m < FLOOR && (k == 1 || 2.0 * y <= s)
    requires !FrontFits(n as real, Square(left), Square(m), Rest(n as real, y))
    ensures IsTopK(Front(n, m, y), First(k), k) && AMax(Front(n, m, y)) == m
    ensures !Contracts(rnd, Front(n, m, y), First(k))
  {
    FrontTopK(n, k, m, y);
    BelowFloor(rnd, Front(n, m, y), First(k), k, s);
    UnfitFails(rnd, n, k, m, y, s, left);
  }

  /**
   For a given chunk size and number of places kept, with exact scales: all chunks of largest magnitude `m` are
   contracted if and only if `m` is zero or reaches the floor, or, with one place kept, is one or two
   thirds of it, or, with more, gives up enough. The failing chunk is `m` with a rest of equal
   entries: `m` again when one place is kept, at most half a scale otherwise.
   */
  lemma ContractsAtIff(rnd: Rounding, n: nat, k: nat, m: real)
    requires Accurate(rnd, 0.0) && 1 <= k <= n && m >= 0.0
    ensures ContractsAt(rnd, n, k, m) <==> GoodAt(n, k, m)
  {
    if GoodAt(n, k, m) {
      forall c: Vec, idx | |c| == n && IsTopK(c, idx, k) && AMax(c) == m ensures Contracts(rnd, c, idx) {
        GoodContracts(rnd, n, k, c, idx);
      }
    } else {
      var y, left := UnfitRest(n, k, m, FLOOR / 3.0);
      BadFails(rnd, n, k, m, y, FLOOR / 3.0, left);
    }
  }
}
