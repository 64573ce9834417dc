/**
 Per-channel quantisation to signed bytes, packed with its scales into one blob, over the reals, with
 scales that are rounded to single precision before they are used.
 */
module Int8Pack {
  import opened Common
  import opened Bytes
  import opened Reals
  import opened Quantizer
  import opened Modulo
  import SW = SparseWire

  /** The least scale. */
  const TINY: real := 0.00000001

  lemma {:induction false} ProductLeast(shape: seq<nat>, least: nat)
    requires least <= 1 && forall i :: 0 <= i < |shape| ==> shape[i] >= least
    ensures Product(shape) >= least
    decreases |shape|
  {
    if shape != [] {
      var n := |shape| - 1;
      ProductLeast(shape[..n], least);
      LeastOfProduct(Product(shape[..n]), shape[n], least);
    }
  }

  lemma LeastOfProduct(a: nat, b: nat, least: nat)
    requires least <= 1 && a >= least && b >= least
    ensures a * b >= least
  {
  }

  function Elements(shape: seq<nat>): nat
  {
    ProductLeast(shape, 0);
    Product(shape)
  }

  /** A dimension counted from the end when negative. */
  function Axis(rank: nat, dim: int): int { if dim < 0 then rank + dim else dim }

  predicate Fits(shape: seq<nat>, dim: int, x: Vec)
  {
    && 0 <= Axis(|shape|, dim) < |shape| && |x| == Elements(shape)
    && forall i :: 0 <= i < |shape| ==> shape[i] >= 1
  }

  /** How many channels there are, and how many consecutive elements of one channel lie side by side. */
  function Channels(shape: seq<nat>, dim: int): nat
    requires 0 <= Axis(|shape|, dim) < |shape|
  {
    shape[Axis(|shape|, dim)]
  }

  function Stride(shape: seq<nat>, dim: int): nat
    requires 0 <= Axis(|shape|, dim) < |shape|
  {
    Elements(shape[Axis(|shape|, dim) + 1..])
  }

  /** The channel of the element at a flat position. */
  function ChannelOf(stride: nat, channels: nat, i: nat): (c: nat)
    requires stride >= 1 && channels >= 1
    ensures c < channels
  {
    i / stride % channels
  }

  /** The largest magnitude in a channel. */
  function ChannelMax(x: Vec, stride: nat, channels: nat, c: nat): (m: real)
    requires stride >= 1 && channels >= 1
    ensures m >= 0.0 && forall i :: 0 <= i < |x| && ChannelOf(stride, channels, i) == c ==> Abs(x[i]) <= m
    decreases |x|
  {
    if x == [] then 0.0
    else
      var n := |x| - 1;
      var m := ChannelMax(x[..n], stride, channels, c);
      assert forall i :: 0 <= i < n ==> x[..n][i] == x[i];
      if ChannelOf(stride, channels, n) == c then Max(m, Abs(x[n])) else m
  }

  lemma {:induction false} ChannelMaxBelow(x: Vec, stride: nat, channels: nat, c: nat, bound: real)
    requires stride >= 1 && channels >= 1 && bound >= 0.0
    requires forall i :: 0 <= i < |x| && ChannelOf(stride, channels, i) == c ==> Abs(x[i]) <= bound
    ensures ChannelMax(x, stride, channels, c) <= bound
    decreases |x|
  {
    if x != [] {
      ChannelMaxBelow(x[..|x| - 1], stride, channels, c, bound);
    }
  }

  /** A 127th of the channel's largest magnitude, as it is stored: packing and unpacking use the same number. */
  function ScaleOf(rnd: Rounding, x: Vec, stride: nat, channels: nat, c: nat): (s: real)
    requires stride >= 1 && channels >= 1
    ensures s > 0.0
  {
    rnd(Max(ChannelMax(x, stride, channels, c) / 127.0, TINY))
  }

  /** Scales up to `hi` are stored with a relative error of at most 1/256. */
  ghost predicate AccurateUpTo(rnd: Rounding, hi: real)
  {
    hi >= TINY && forall x {:trigger rnd(x)} :: TINY <= x <= hi ==> Near(rnd(x), x, 0.00390625)
  }

  function Quantised(v: real, s: real): (q: int)
    requires s > 0.0
    ensures -128 <= q <= 127
  {
    Clamp(Round(v / s), -128, 127)
  }

  // ------------------------------------------------------------------------
  // One element
  // ------------------------------------------------------------------------

  lemma HalfScale(e: real, s: real, d: real)
    requires s > 0.0 && d == e * s && Abs(e) <= 0.5
    ensures Abs(d) <= 0.5 * s
  {
    ScaledAbs(e, 0.5, s, d, 0.5 * s);
  }

  lemma Leftover(v: real, y: real, q: real, s: real, u: real)
    requires s > 0.0 && v == y * s && u == q * s && Abs(y - q) <= 0.5
    ensures Abs(v - u) <= 0.5 * s
  {
    assert v - u == (y - q) * s;
    HalfScale(y - q, s, v - u);
  }

  lemma UnitError(y: real)
    requires Abs(y) < 127.5
    ensures Clamp(Round(y), -128, 127) == Round(y) && Abs(y - Round(y) as real) <= 0.5
  {
    RoundNearest(y);
  }

  /** Within its channel's scale the clamp is idle and an element is off by at most half the scale. */
  lemma ElementError(v: real, s: real, u: real)
    requires s > 0.0 && Abs(v) <= 127.499 * s && u == Quantised(v, s) as real * s
    ensures Quantised(v, s) == Round(v / s) && Abs(v - u) <= 0.5 * s
  {
    QuotientBound(v, s, 127.499);
    UnitError(v / s);
    Leftover(v, v / s, Round(v / s) as real, s, u);
  }

  // ------------------------------------------------------------------------
  // The blob
  // ------------------------------------------------------------------------

  function Scales(rnd: Rounding, x: Vec, stride: nat, channels: nat): (v: Vec)
    requires stride >= 1 && channels >= 1
    ensures |v| == channels
  {
    seq(channels, c requires 0 <= c < channels => ScaleOf(rnd, x, stride, channels, c))
  }

  function Values(rnd: Rounding, x: Vec, stride: nat, channels: nat): (q: seq<int>)
    requires stride >= 1 && channels >= 1
    ensures |q| == |x| && AllInt8(q)
  {
    seq(|x|, i requires 0 <= i < |x| =>
      Quantised(x[i], ScaleOf(rnd, x, stride, channels, ChannelOf(stride, channels, i))))
  }

  predicate AllInt8(q: seq<int>) { forall i :: 0 <= i < |q| ==> -128 <= q[i] <= 127 }

  function Words(f: SW.Float32, scales: Vec): (ws: seq<Word>)
    ensures |ws| == |scales|
  {
    seq<Word>(|scales|, c requires 0 <= c < |scales| => f.bits(scales[c]))
  }

  function Int8s(q: seq<int>): (b: seq<byte>)
    requires AllInt8(q)
    ensures |b| == |q|
  {
    seq<byte>(|q|, i requires 0 <= i < |q| => FromInt8(q[i]))
  }

  function Blob(f: SW.Float32, scales: Vec, q: seq<int>): (b: seq<byte>)
    requires AllInt8(q)
    ensures |b| == 4 * |scales| + |q|
  {
    Le32s(Words(f, scales)) + Int8s(q)
  }

  /** The blob of a tensor: four bytes of scale for each channel, then one byte for each element. */
  function Pack(f: SW.Float32, rnd: Rounding, shape: seq<nat>, dim: int, x: Vec): (b: seq<byte>)
    requires Fits(shape, dim, x)
    ensures |b| == 4 * Channels(shape, dim) + |x|
  {
    StridePositive(shape, dim, x);
    var k, stride := Channels(shape, dim), Stride(shape, dim);
    Blob(f, Scales(rnd, x, stride, k), Values(rnd, x, stride, k))
  }

  /** A shape whose dimensions are all positive has a positive stride. */
  lemma StridePositive(shape: seq<nat>, dim: int, x: Vec)
    requires Fits(shape, dim, x)
    ensures Stride(shape, dim) >= 1
  {
    ProductLeast(shape[Axis(|shape|, dim) + 1..], 1);
  }

  /** The element at a flat position, from the blob. */
  function ElementAt(f: SW.Float32, b: seq<byte>, k: nat, c: nat, i: nat): real
    requires c < k && 4 * k + i < |b|
  {
    ToInt8(b[4 * k + i]) as real * f.value(WordAt(b, 4 * c))
  }

  function Unpack(f: SW.Float32, shape: seq<nat>, dim: int, b: seq<byte>): Result<Vec>
    requires 0 <= Axis(|shape|, dim) < |shape|
  {
    var k, stride := Channels(shape, dim), Stride(shape, dim);
    if |b| != 4 * k + Elements(shape) || k == 0 || stride == 0 then Err("size does not match the shape")
    else Ok(seq(Elements(shape), i requires 0 <= i < Elements(shape) => ElementAt(f, b, k, ChannelOf(stride, k, i), i)))
  }

  lemma Int8Back(v: int)
    requires -128 <= v <= 127
    ensures ToInt8(FromInt8(v)) == v
  {
  }

  lemma ScaleRead(ws: seq<Word>, bs: seq<byte>, c: nat)
    requires c < |ws|
    ensures WordAt(Le32s(ws) + bs, 4 * c) == ws[c]
  {
    WordBytes(ws, c);
    FrontFourBytes(Le32s(ws), bs, 4 * c, ws[c]);
  }

  lemma ValueRead(ws: seq<Word>, q: seq<int>, i: nat)
    requires AllInt8(q) && i < |q|
    ensures ToInt8((Le32s(ws) + Int8s(q))[4 * |ws| + i]) == q[i]
  {
    Int8Back(q[i]);
    assert (Le32s(ws) + Int8s(q))[4 * |ws| + i] == Int8s(q)[i];
  }

  predicate ScaleAt(f: SW.Float32, b: seq<byte>, c: nat, s: real)
    requires 4 * c + 4 <= |b|
  {
    WordAt(b, 4 * c) == f.bits(s)
  }

  predicate ValueAt(b: seq<byte>, k: nat, i: nat, v: int)
    requires 4 * k + i < |b|
  {
    ToInt8(b[4 * k + i]) == v
  }

  /** The blob holds these scales and values. */
  ghost predicate Holds(f: SW.Float32, b: seq<byte>, scales: Vec, q: seq<int>)
  {
    && |b| == 4 * |scales| + |q|
    && (forall c :: 0 <= c < |scales| ==> ScaleAt(f, b, c, scales[c]))
    && (forall i :: 0 <= i < |q| ==> ValueAt(b, |scales|, i, q[i]))
  }

  lemma BlobHolds(f: SW.Float32, scales: Vec, q: seq<int>)
    requires AllInt8(q)
    ensures Holds(f, Blob(f, scales, q), scales, q)
  {
    var b := Blob(f, scales, q);
    forall c | 0 <= c < |scales| ensures ScaleAt(f, b, c, scales[c]) {
      ScaleRead(Words(f, scales), Int8s(q), c);
    }
    forall i | 0 <= i < |q| ensures ValueAt(b, |scales|, i, q[i]) {
      ValueRead(Words(f, scales), q, i);
    }
  }

  lemma ElementIs(f: SW.Float32, b: seq<byte>, k: nat, c: nat, i: nat, v: int, s: real)
    requires c < k && 4 * k + i < |b| && ValueAt(b, k, i, v) && ScaleAt(f, b, c, s) && f.value(f.bits(s)) == s
    ensures ElementAt(f, b, k, c, i) == v as real * s
  {
    assert ToInt8(b[4 * k + i]) == v;
    assert f.value(WordAt(b, 4 * c)) == s;
  }

  /** All the scales are single-precision numbers. */
  predicate Carried(f: SW.Float32, scales: Vec)
  {
    forall c :: 0 <= c < |scales| ==> f.value(f.bits(scales[c])) == scales[c]
  }

  /** The value sent for an element, times the scale, is within half the scale of the element. */
  predicate CloseTo(v: real, q: int, s: real) { Abs(v - q as real * s) <= 0.5 * s }

  lemma ElementClose(f: SW.Float32, b: seq<byte>, scales: Vec, q: seq<int>, c: nat, i: nat, v: real)
    requires Holds(f, b, scales, q) && Carried(f, scales) && c < |scales| && i < |q| && CloseTo(v, q[i], scales[c])
    ensures Abs(v - ElementAt(f, b, |scales|, c, i)) <= 0.5 * scales[c]
  {
    ElementIs(f, b, |scales|, c, i, q[i], scales[c]);
    CloseIs(v, q[i], scales[c], ElementAt(f, b, |scales|, c, i));
  }

  lemma CloseIs(v: real, q: int, s: real, u: real)
    requires CloseTo(v, q, s) && u == q as real * s
    ensures Abs(v - u) <= 0.5 * s
  {
  }

  lemma QuantisedClose(v: real, s: real)
    requires s > 0.0 && Abs(v) <= 127.499 * s
    ensures CloseTo(v, Quantised(v, s), s)
  {
    ElementError(v, s, Quantised(v, s) as real * s);
  }

  lemma StoredScaleCovers(m: real, s: real, v: real)
    requires Near(s, m, 0.00390625) && m >= 0.0 && Abs(v) <= 127.0 * m
    ensures Abs(v) <= 127.499 * s
  {
    NearBounds(s, m, 0.00390625);
  }

  /** An element never exceeds its channel's stored scale by more than the clamp and rounding allow. */
  lemma ScaleCovers(rnd: Rounding, hi: real, x: Vec, stride: nat, k: nat, i: nat)
    requires stride >= 1 && k >= 1 && i < |x|
    requires AccurateUpTo(rnd, hi) && forall j :: 0 <= j < |x| ==> Abs(x[j]) <= 127.0 * hi
    ensures Abs(x[i]) <= 127.499 * ScaleOf(rnd, x, stride, k, ChannelOf(stride, k, i))
  {
    var c := ChannelOf(stride, k, i);
    ChannelMaxBelow(x, stride, k, c, 127.0 * hi);
    var m := Max(ChannelMax(x, stride, k, c) / 127.0, TINY);
    assert TINY <= m <= hi;
    StoredScaleCovers(m, rnd(m), x[i]);
  }

  /** What is sent of an element is close to it. */
  lemma ValueClose(rnd: Rounding, hi: real, x: Vec, stride: nat, k: nat, i: nat, c: nat, s: real)
    requires stride >= 1 && k >= 1 && i < |x| && c == ChannelOf(stride, k, i) && s == ScaleOf(rnd, x, stride, k, c)
    requires AccurateUpTo(rnd, hi) && forall j :: 0 <= j < |x| ==> Abs(x[j]) <= 127.0 * hi
    ensures Scales(rnd, x, stride, k)[c] == s && CloseTo(x[i], Values(rnd, x, stride, k)[i], s)
  {
    ScaleCovers(rnd, hi, x, stride, k, i);
    QuantisedClose(x[i], s);
    assert Values(rnd, x, stride, k)[i] == Quantised(x[i], s);
  }

  lemma UnpackElements(f: SW.Float32, shape: seq<nat>, dim: int, b: seq<byte>, i: nat)
    requires 0 <= Axis(|shape|, dim) < |shape| && Stride(shape, dim) >= 1 && Channels(shape, dim) >= 1
    requires |b| == 4 * Channels(shape, dim) + Elements(shape) && i < Elements(shape)
    ensures var r := Unpack(f, shape, dim, b);
            && r.Ok? && |r.value| == Elements(shape)
            && r.value[i] == ElementAt(f, b, Channels(shape, dim),
              ChannelOf(Stride(shape, dim), Channels(shape, dim), i), i)
  {
  }

  /** Every element of a tensor is close to what is sent of it. */
  ghost predicate AllClose(x: Vec, scales: Vec, q: seq<int>, stride: nat)
    requires stride >= 1 && |scales| >= 1 && |q| == |x|
  {
    forall i :: 0 <= i < |x| ==> CloseTo(x[i], q[i], scales[ChannelOf(stride, |scales|, i)])
  }

  /** Unpacking a blob of close values gives close elements. */
  lemma UnpackClose(f: SW.Float32, shape: seq<nat>, dim: int, x: Vec, scales: Vec, q: seq<int>, b: seq<byte>, i: nat)
    requires 0 <= Axis(|shape|, dim) < |shape| && Stride(shape, dim) >= 1 && Channels(shape, dim) >= 1
    requires |q| == |x| == Elements(shape) && |scales| == Channels(shape, dim) && Holds(f, b, scales, q) &&
             Carried(f, scales)
    requires AllClose(x, scales, q, Stride(shape, dim)) && i < |x|
    ensures var r := Unpack(f, shape, dim, b);
            r.Ok? && |r.value| == |x| &&
              Abs(x[i] - r.value[i]) <= 0.5 * scales[ChannelOf(Stride(shape, dim), |scales|, i)]
  {
    UnpackElements(f, shape, dim, b, i);
    ElementClose(f, b, scales, q, ChannelOf(Stride(shape, dim), |scales|, i), i, x[i]);
  }

  lemma ValuesClose(rnd: Rounding, hi: real, x: Vec, stride: nat, k: nat)
    requires stride >= 1 && k >= 1
    requires AccurateUpTo(rnd, hi) && forall j :: 0 <= j < |x| ==> Abs(x[j]) <= 127.0 * hi
    ensures AllClose(x, Scales(rnd, x, stride, k), Values(rnd, x, stride, k), stride)
  {
    var scales, q := Scales(rnd, x, stride, k), Values(rnd, x, stride, k);
    forall i | 0 <= i < |x| ensures CloseTo(x[i], q[i], scales[ChannelOf(stride, k, i)]) {
      var c := ChannelOf(stride, k, i);
      ValueClose(rnd, hi, x, stride, k, i, c, ScaleOf(rnd, x, stride, k, c));
    }
  }

  lemma ScalesCarried(f: SW.Float32, rnd: Rounding, x: Vec, stride: nat, k: nat)
    requires stride >= 1 && k >= 1 && SW.Carries(f, rnd)
    ensures Carried(f, Scales(rnd, x, stride, k))
  {
    var scales := Scales(rnd, x, stride, k);
    forall c | 0 <= c < k ensures f.value(f.bits(scales[c])) == scales[c] {
      assert scales[c] == rnd(Max(ChannelMax(x, stride, k, c) / 127.0, TINY));
    }
  }

  /**
   For every shape and channel dimension, unpacking a packed tensor succeeds and returns every
   element within half of its channel's stored scale.
   */
  lemma UnpackPack(f: SW.Float32, rnd: Rounding, hi: real, shape: seq<nat>, dim: int, x: Vec, i: nat)
    requires Fits(shape, dim, x) && i < |x|
    requires SW.Carries(f, rnd) && AccurateUpTo(rnd, hi) && forall j :: 0 <= j < |x| ==> Abs(x[j]) <= 127.0 * hi
    ensures Stride(shape, dim) >= 1 && Channels(shape, dim) >= 1
    ensures var r, k := Unpack(f, shape, dim, Pack(f, rnd, shape, dim, x)), Channels(shape, dim);
            && r.Ok? && |r.value| == |x|
            && Abs(x[i] - r.value[i]) <=
              0.5 * ScaleOf(rnd, x, Stride(shape, dim), k, ChannelOf(Stride(shape, dim), k, i))
  {
    StridePositive(shape, dim, x);
    var stride, k := Stride(shape, dim), Channels(shape, dim);
    var scales, q := Scales(rnd, x, stride, k), Values(rnd, x, stride, k);
    ValuesClose(rnd, hi, x, stride, k);
    ScalesCarried(f, rnd, x, stride, k);
    BlobHolds(f, scales, q);
    UnpackClose(f, shape, dim, x, scales, q, Blob(f, scales, q), i);
  }

  lemma ScaleBelow(rnd: Rounding, hi: real, x: Vec, stride: nat, channels: nat, c: nat, m: real)
    requires stride >= 1 && channels >= 1 && AccurateUpTo(rnd, hi) && 0.0 <= m <= 127.0 * hi
    requires forall j :: 0 <= j < |x| && ChannelOf(stride, channels, j) == c ==> Abs(x[j]) <= m
    ensures ScaleOf(rnd, x, stride, channels, c) <= 1.00390625 * Max(m / 127.0, TINY)
  {
    var y := Max(ChannelMax(x, stride, channels, c) / 127.0, TINY);
    ChannelMaxBelow(x, stride, channels, c, m);
    assert TINY <= y <= hi && y <= Max(m / 127.0, TINY);
    assert Near(rnd(y), y, 0.00390625);
  }

  /** An element is off by little more than a 254th of the largest magnitude in its own channel. */
  lemma UnpackPackWithin(f: SW.Float32, rnd: Rounding, hi: real, shape: seq<nat>, dim: int, x: Vec, i: nat, m: real)
    requires Fits(shape, dim, x) && i < |x| && 0.0 <= m <= 127.0 * hi
    requires SW.Carries(f, rnd) && AccurateUpTo(rnd, hi) && forall j :: 0 <= j < |x| ==> Abs(x[j]) <= 127.0 * hi
    requires Stride(shape, dim) >= 1 && Channels(shape, dim) >= 1
    requires var stride, k := Stride(shape, dim), Channels(shape, dim);
             forall j :: 0 <= j < |x| && ChannelOf(stride, k, j) == ChannelOf(stride, k, i) ==> Abs(x[j]) <= m
    ensures var r := Unpack(f, shape, dim, Pack(f, rnd, shape, dim, x));
            r.Ok? && |r.value| == |x| && Abs(x[i] - r.value[i]) <= 0.501953125 * Max(m / 127.0, TINY)
  {
    var stride, k := Stride(shape, dim), Channels(shape, dim);
    UnpackPack(f, rnd, hi, shape, dim, x, i);
    ScaleBelow(rnd, hi, x, stride, k, ChannelOf(stride, k, i), m);
  }

  // ------------------------------------------------------------------------
  // Channels are coordinates
  // ------------------------------------------------------------------------

  predicate InShape(shape: seq<nat>, at: seq<nat>)
  {
    |at| == |shape| && forall j :: 0 <= j < |shape| ==> at[j] < shape[j]
  }

  /** The flat position of an element in row-major order. */
  function FlatAt(shape: seq<nat>, at: seq<nat>): nat
    requires |at| == |shape|
  {
    if shape == [] then 0
    else var n := |shape| - 1; FlatAt(shape[..n], at[..n]) * shape[n] + at[n]
  }

  lemma CarryOver(g: nat, e: nat, t: nat, s: nat, i: nat)
    requires t < e && i < s
    ensures (g * e + t) * s + i == g * (e * s) + (t * s + i) && t * s + i < e * s
  {
    Distribute(g, e, t, s);
    AtLeastOne(e - t, s);
    assert e * s == t * s + (e - t) * s;
  }

  lemma Distribute(g: nat, e: nat, t: nat, s: nat)
    ensures (g * e + t) * s == g * (e * s) + t * s
  {
    assert (g * e) * s == g * (e * s);
  }

  /** A flat position is that of the leading coordinates, in units of the trailing elements, and a rest. */
  lemma {:induction false} FlatSplits(shape: seq<nat>, at: seq<nat>, a: nat) returns (rest: nat)
    requires InShape(shape, at) && a <= |shape|
    ensures rest < Elements(shape[a..])
    ensures FlatAt(shape, at) == FlatAt(shape[..a], at[..a]) * Elements(shape[a..]) + rest
    decreases |shape|
  {
    if a == |shape| {
      rest := 0;
      assert shape[..a] == shape && at[..a] == at && shape[a..] == [];
    } else {
      var n := |shape| - 1;
      var t := FlatSplits(shape[..n], at[..n], a);
      rest := t * shape[n] + at[n];
      assert shape[..n][..a] == shape[..a] && at[..n][..a] == at[..a];
      assert shape[a..][..n - a] == shape[..n][a..] && shape[a..][n - a] == shape[n];
      CarryOver(FlatAt(shape[..a], at[..a]), Elements(shape[..n][a..]), t, shape[n], at[n]);
    }
  }

  lemma WholeUnits(g: nat, e: nat, t: nat, x: nat)
    requires t < e && x == g * e + t
    ensures x / e == g
  {
    Remainder(g, e, t, x);
    SameQuotient(x / e, g, e);
  }

  lemma SameQuotient(a: int, b: int, e: nat)
    requires e >= 1 && a * e == b * e
    ensures a == b
  {
    if a != b {
      AtLeastOne(a - b, e);
      AtLeastOne(b - a, e);
    }
  }

  /** The channel of an element is its coordinate along the channel dimension. */
  lemma ChannelIsCoordinate(shape: seq<nat>, dim: int, at: seq<nat>)
    requires InShape(shape, at) && 0 <= Axis(|shape|, dim) < |shape|
    ensures Stride(shape, dim) >= 1 && Channels(shape, dim) >= 1
    ensures ChannelOf(Stride(shape, dim), Channels(shape, dim), FlatAt(shape, at)) == at[Axis(|shape|, dim)]
  {
    var a := Axis(|shape|, dim);
    var rest := FlatSplits(shape, at, a + 1);
    WholeUnits(FlatAt(shape[..a + 1], at[..a + 1]), Stride(shape, dim), rest, FlatAt(shape, at));
    assert shape[..a + 1][..a] == shape[..a] && at[..a + 1][..a] == at[..a];
    Remainder(FlatAt(shape[..a], at[..a]), shape[a], at[a], FlatAt(shape[..a + 1], at[..a + 1]));
  }
}
