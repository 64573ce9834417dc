/** The sparse payload of a tensor through the packed wire format, to the dense tensor of a peer. */
module SparseWire {
  import opened Common
  import opened Bytes
  import opened Reals
  import opened Chunks
  import opened Quantizer
  import ST = SparseTensor
  import opened SparseCodec

  /** Single-precision numbers: the bit pattern of a value, and the value of a bit pattern. */
  datatype Float32 = Float32(bits: real -> Word, value: Word -> real)

  /** What `round` makes of a positive number is a single-precision number: its bit pattern has that value. */
  ghost predicate Carries(f: Float32, round: Rounding)
  {
    forall x {:trigger round(x)} :: x > 0.0 ==> f.value(f.bits(round(x))) == round(x)
  }

  /** A row of two-bit values as the compressor makes it, with a scale that single precision holds. */
  predicate GoodRow(f: Float32, chunk: nat, k: nat, r: Packed)
  {
    && |r.q| == |r.idx| == k && Inside(r.idx, chunk) && Distinct(r.idx)
    && (forall i :: 0 <= i < k ==> -3 <= r.q[i] <= 3)
    && r.scale > 0.0 && f.value(f.bits(r.scale)) == r.scale
  }

  predicate AllGood(f: Float32, chunk: nat, k: nat, rows: seq<Packed>)
  {
    forall i :: 0 <= i < |rows| ==> GoodRow(f, chunk, k, rows[i])
  }

  // The matrices of the payload, row after row.

  function FlatQ(rows: seq<Packed>): seq<int> { if rows == [] then [] else rows[0].q + FlatQ(rows[1..]) }

  function FlatIdx(rows: seq<Packed>): seq<int> { if rows == [] then [] else rows[0].idx + FlatIdx(rows[1..]) }

  function Scales(f: Float32, rows: seq<Packed>): seq<Word>
  {
    if rows == [] then [] else [f.bits(rows[0].scale)] + Scales(f, rows[1..])
  }

  function ToWire(f: Float32, k: nat, p: ST.SparsePayload): Payload
  {
    Payload(FlatQ(p.rows), Scales(f, p.rows), FlatIdx(p.rows), |p.rows|, k, p.pad, p.shape, p.chunk)
  }

  function RowsFrom(f: Float32, k: nat, q: seq<int>, idx: seq<int>, scale: seq<Word>): seq<Packed>
    decreases |scale|
  {
    if scale == [] || |q| < k || |idx| < k then []
    else [Packed(idx[..k], q[..k], f.value(scale[0]))] + RowsFrom(f, k, q[k..], idx[k..], scale[1..])
  }

  function FromWire(f: Float32, w: Payload): ST.SparsePayload
  {
    ST.SparsePayload(RowsFrom(f, w.k, w.q, w.idx, w.scale), w.pad, w.shape, w.chunkSize)
  }

  lemma {:induction false} RowsBack(f: Float32, chunk: nat, k: nat, rows: seq<Packed>)
    requires AllGood(f, chunk, k, rows)
    ensures RowsFrom(f, k, FlatQ(rows), FlatIdx(rows), Scales(f, rows)) == rows
    decreases |rows|
  {
    if rows != [] {
      RowsBack(f, chunk, k, rows[1..]);
      var r := rows[0];
      assert GoodRow(f, chunk, k, r);
      assert FlatQ(rows)[..k] == r.q && FlatQ(rows)[k..] == FlatQ(rows[1..]);
      assert FlatIdx(rows)[..k] == r.idx && FlatIdx(rows)[k..] == FlatIdx(rows[1..]);
    }
  }

  // ------------------------------------------------------------------------
  // The payload is well formed
  // ------------------------------------------------------------------------

  predicate Fits(k: nat, p: ST.SparsePayload)
  {
    IsWord(|p.rows|) && IsWord(k) && IsWord(p.pad) && p.chunk <= 0x8000_0000 && IsWord(|p.shape|) && AllWords(p.shape)
  }

  lemma OneRowMore(n: nat, k: nat)
    ensures n >= 1 ==> n * k == k + (n - 1) * k
  {
  }

  lemma {:induction false} FlatShape(f: Float32, chunk: nat, k: nat, rows: seq<Packed>)
    requires AllGood(f, chunk, k, rows)
    ensures |FlatQ(rows)| == |FlatIdx(rows)| == |rows| * k && |Scales(f, rows)| == |rows|
    ensures forall i :: 0 <= i < |FlatQ(rows)| ==> -3 <= FlatQ(rows)[i] <= 3
    ensures Below(FlatIdx(rows), chunk)
    decreases |rows|
  {
    if rows != [] {
      FlatShape(f, chunk, k, rows[1..]);
      assert GoodRow(f, chunk, k, rows[0]);
      OneRowMore(|rows|, k);
    }
  }

  lemma WireWellFormed(f: Float32, k: nat, p: ST.SparsePayload)
    requires AllGood(f, p.chunk, k, p.rows) && Fits(k, p) && k >= 1 && |p.rows| >= 1
    ensures WellFormed(ToWire(f, k, p))
  {
    FlatShape(f, p.chunk, k, p.rows);
  }

  // ------------------------------------------------------------------------
  // Zeros that turn into minus one
  // ------------------------------------------------------------------------

  function Flip(r: Packed): Packed { r.(q := ZerosToMinusOne(r.q)) }

  function FlipAll(rows: seq<Packed>): seq<Packed> { if rows == [] then [] else [Flip(rows[0])] + FlipAll(rows[1..]) }

  lemma FlipConcat(a: seq<int>, b: seq<int>)
    ensures ZerosToMinusOne(a + b) == ZerosToMinusOne(a) + ZerosToMinusOne(b)
  {
  }

  lemma {:induction false} FlippedMatrices(f: Float32, chunk: nat, k: nat, rows: seq<Packed>)
    requires AllGood(f, chunk, k, rows)
    ensures AllGood(f, chunk, k, FlipAll(rows)) && |FlipAll(rows)| == |rows|
    ensures FlatQ(FlipAll(rows)) == ZerosToMinusOne(FlatQ(rows))
    ensures FlatIdx(FlipAll(rows)) == FlatIdx(rows) && Scales(f, FlipAll(rows)) == Scales(f, rows)
    decreases |rows|
  {
    if rows != [] {
      FlippedMatrices(f, chunk, k, rows[1..]);
      assert GoodRow(f, chunk, k, rows[0]);
      FlipConcat(rows[0].q, FlatQ(rows[1..]));
      assert FlipAll(rows)[1..] == FlipAll(rows[1..]);
    }
  }

  /** What a peer gets: the rows sent, with zeros turned into -1 when all values look two-bit. */
  lemma ReceivedRows(f: Float32, k: nat, p: ST.SparsePayload)
    requires AllGood(f, p.chunk, k, p.rows)
    ensures FromWire(f, Received(ToWire(f, k, p))) ==
            p.(rows := if LooksTwoBit(FlatQ(p.rows)) then FlipAll(p.rows) else p.rows)
  {
    RowsBack(f, p.chunk, k, p.rows);
    FlippedMatrices(f, p.chunk, k, p.rows);
    RowsBack(f, p.chunk, k, FlipAll(p.rows));
  }

  /** The first `n` entries, or all there are. */
  function Take(v: Vec, n: int): Vec { if n <= 0 then [] else if n <= |v| then v[..n] else v }

  lemma TakeConcat(a: Vec, b: Vec, n: int)
    ensures Take(a + b, n) == Take(a, n) + Take(b, n - |a|)
  {
  }

  /** The row sends a zero for one of the first `n` places of its chunk. */
  predicate ZeroIn(r: Packed, n: int) { |r.q| == |r.idx| && exists i :: 0 <= i < |r.q| && r.q[i] == 0 && r.idx[i] < n }

  /** Some row sends a zero for one of the first `n` places of the whole vector. */
  predicate ZeroBelow(chunk: nat, rows: seq<Packed>, n: int)
    decreases |rows|
  {
    rows != [] && (ZeroIn(rows[0], n) || ZeroBelow(chunk, rows[1..], n - chunk))
  }

  lemma WrittenAt(chunk: nat, r: Packed, i: nat)
    requires Sound(r, chunk) && Distinct(r.idx) && i < |r.idx|
    ensures ST.WriteOut(chunk, r)[r.idx[i]] == r.q[i] as real * r.scale
  {
    ScatterAt(chunk, r.idx, Dequants(r.q, r.scale), i);
  }

  lemma FlipAt(f: Float32, chunk: nat, k: nat, r: Packed, i: nat)
    requires GoodRow(f, chunk, k, r) && i < k
    ensures ST.WriteOut(chunk, r)[r.idx[i]] == r.q[i] as real * r.scale
    ensures ST.WriteOut(chunk, Flip(r))[r.idx[i]] == (if r.q[i] == 0 then -1 else r.q[i]) as real * r.scale
  {
    WrittenAt(chunk, r, i);
    WrittenAt(chunk, Flip(r), i);
  }

  lemma FlipElsewhere(f: Float32, chunk: nat, k: nat, r: Packed, j: nat)
    requires GoodRow(f, chunk, k, r) && j < chunk && j !in r.idx
    ensures ST.WriteOut(chunk, r)[j] == ST.WriteOut(chunk, Flip(r))[j]
  {
    ScatterElsewhere(chunk, r.idx, Dequants(r.q, r.scale), j);
    ScatterElsewhere(chunk, r.idx, Dequants(Flip(r).q, r.scale), j);
  }

  lemma FlipSeen(f: Float32, chunk: nat, k: nat, r: Packed, n: int, a: Vec, b: Vec)
    requires GoodRow(f, chunk, k, r) && a == ST.WriteOut(chunk, r) && b == ST.WriteOut(chunk, Flip(r)) && ZeroIn(r, n)
    ensures Take(a, n) != Take(b, n)
  {
    var i :| 0 <= i < |r.q| && r.q[i] == 0 && r.idx[i] < n;
    FlipAt(f, chunk, k, r, i);
    assert Take(a, n)[r.idx[i]] == a[r.idx[i]] && Take(b, n)[r.idx[i]] == b[r.idx[i]];
  }

  lemma FlipUnseen(f: Float32, chunk: nat, k: nat, r: Packed, n: int, a: Vec, b: Vec)
    requires GoodRow(f, chunk, k, r) && a == ST.WriteOut(chunk, r) && b == ST.WriteOut(chunk, Flip(r)) && !ZeroIn(r, n)
    ensures Take(a, n) == Take(b, n)
  {
    forall j | 0 <= j < |Take(a, n)| ensures Take(a, n)[j] == Take(b, n)[j] {
      if j in r.idx {
        var i :| 0 <= i < |r.idx| && r.idx[i] == j;
        FlipAt(f, chunk, k, r, i);
      } else {
        FlipElsewhere(f, chunk, k, r, j);
      }
    }
  }

  /** The first `n` entries written out change exactly when a zero was sent for one of them. */
  lemma {:induction false} FlipSeenIff(f: Float32, chunk: nat, k: nat, rows: seq<Packed>, n: int)
    requires AllGood(f, chunk, k, rows)
    ensures Take(Expand(ST.ChunkOf(chunk), FlipAll(rows)), n) == Take(Expand(ST.ChunkOf(chunk), rows), n) <==>
            !ZeroBelow(chunk, rows, n)
    decreases |rows|
  {
    if rows != [] {
      var r, h := rows[0], ST.ChunkOf(chunk);
      assert GoodRow(f, chunk, k, r);
      FlipSeenIff(f, chunk, k, rows[1..], n - chunk);
      var a, b := ST.WriteOut(chunk, r), ST.WriteOut(chunk, Flip(r));
      var x, y := Expand(h, rows[1..]), Expand(h, FlipAll(rows[1..]));
      assert FlipAll(rows)[0] == Flip(r) && FlipAll(rows)[1..] == FlipAll(rows[1..]);
      assert Expand(h, rows) == a + x && Expand(h, FlipAll(rows)) == b + y;
      TakeConcat(a, x, n);
      TakeConcat(b, y, n);
      SplitEqual(Take(b, n), Take(y, n - chunk), Take(a, n), Take(x, n - chunk));
      if ZeroIn(r, n) {
        FlipSeen(f, chunk, k, r, n, a, b);
      } else {
        FlipUnseen(f, chunk, k, r, n, a, b);
      }
    }
  }

  // ------------------------------------------------------------------------
  // From the sender's tensor to the peer's
  // ------------------------------------------------------------------------

  lemma RowGood(c: ST.Settings, f: Float32, v: Vec)
    requires IsTopK(v, c.topk(v), c.k) && |v| == c.chunk && c.twoBit && Carries(f, c.round)
    ensures GoodRow(f, c.chunk, c.k, ST.Row(c, v))
  {
    var sel := Selected(v, c.topk(v));
    assert ST.Row(c, v).scale == c.round(Max(AMax(sel), FLOOR) / 3.0);
  }

  lemma {:induction false} RowsGood(c: ST.Settings, f: Float32, p: Vec)
    requires ST.Valid(c) && c.twoBit && Carries(f, c.round)
    ensures AllGood(f, c.chunk, c.k, MapRows(c.chunk, ST.RowOf(c), p))
    decreases |p|
  {
    if |p| >= c.chunk {
      var v := p[..c.chunk];
      var rows := MapRows(c.chunk, ST.RowOf(c), p);
      assert rows[0] == ST.Row(c, v) && rows[1..] == MapRows(c.chunk, ST.RowOf(c), p[c.chunk..]);
      RowsGood(c, f, p[c.chunk..]);
      assert IsTopK(v, c.topk(v), c.k);
      RowGood(c, f, v);
    }
  }

  /** What the peer holds after the payload has gone through the packed format. */
  function PeerCopy(f: Float32, w: Payload): ST.Tensor { ST.Decode(FromWire(f, w)) }

  lemma CopyOf(chunk: nat, rows: seq<Packed>, pad: nat, n: nat, v: Vec)
    requires v == Expand(ST.ChunkOf(chunk), rows) && |v| == n + pad
    ensures ST.CutPad(v, pad) == Take(v, n)
  {
  }

  lemma {:induction false} ExpandLength(chunk: nat, rows: seq<Packed>, other: seq<Packed>)
    requires |rows| == |other|
    ensures |Expand(ST.ChunkOf(chunk), rows)| == |Expand(ST.ChunkOf(chunk), other)|
    decreases |rows|
  {
    if rows != [] {
      ExpandLength(chunk, rows[1..], other[1..]);
    }
  }

  lemma CopiesEqualIff(c: ST.Settings, f: Float32, t: ST.Tensor)
    requires ST.Valid(c) && c.twoBit && AllGood(f, c.chunk, c.k, ST.Encode(c, t).rows)
    ensures var p := ST.Encode(c, t);
            ST.Decode(p.(rows := FlipAll(p.rows))) == ST.Decode(p) <==> !ZeroBelow(c.chunk, p.rows, |t.data|)
  {
    var p := ST.Encode(c, t);
    FlippedMatrices(f, c.chunk, c.k, p.rows);
    FlipSeenIff(f, c.chunk, c.k, p.rows, |t.data|);
    ExpandLength(c.chunk, p.rows, FlipAll(p.rows));
    PaddedWhole(c.chunk, t.data);
    ST.FlatAgree(c, Padded(c.chunk, t.data), |t.data|);
    CopyOf(c.chunk, p.rows, p.pad, |t.data|, Expand(ST.ChunkOf(c.chunk), p.rows));
    CopyOf(c.chunk, FlipAll(p.rows), p.pad, |t.data|, Expand(ST.ChunkOf(c.chunk), FlipAll(p.rows)));
  }

  /** The peer's copy has the shape and the size of the tensor. */
  lemma CopyShape(c: ST.Settings, f: Float32, t: ST.Tensor)
    requires ST.Valid(c) && c.twoBit && Carries(f, c.round)
    ensures var copy := PeerCopy(f, Received(ToWire(f, c.k, ST.Encode(c, t))));
            copy.shape == t.shape && |copy.data| == |t.data|
  {
    var p := ST.Encode(c, t);
    PaddedWhole(c.chunk, t.data);
    RowsGood(c, f, Padded(c.chunk, t.data));
    ReceivedRows(f, c.k, p);
    FlippedMatrices(f, c.chunk, c.k, p.rows);
    ExpandLength(c.chunk, p.rows, FlipAll(p.rows));
    ST.FlatAgree(c, Padded(c.chunk, t.data), |t.data|);
  }

  /** All values sent of the tensor look two-bit, and one of its entries is sent as zero. */
  predicate HidesEntry(c: ST.Settings, t: ST.Tensor)
    requires c.chunk >= 1
  {
    var rows := ST.Encode(c, t).rows;
    LooksTwoBit(FlatQ(rows)) && ZeroBelow(c.chunk, rows, |t.data|)
  }

  /**
   The payload of a non-empty tensor is well formed, and the peer's copy of it is exactly what the
   sender takes for sent unless an entry is hidden.
   */
  lemma CopyAgreesIff(c: ST.Settings, f: Float32, t: ST.Tensor)
    requires ST.Valid(c) && c.twoBit && |t.data| > 0
    requires Fits(c.k, ST.Encode(c, t)) && Carries(f, c.round)
    ensures var w := ToWire(f, c.k, ST.Encode(c, t));
            WellFormed(w) && (PeerCopy(f, Received(w)) == ST.Dense(c, t) <==> !HidesEntry(c, t))
  {
    var p := ST.Encode(c, t);
    PaddedWhole(c.chunk, t.data);
    RowsGood(c, f, Padded(c.chunk, t.data));
    WireWellFormed(f, c.k, p);
    ReceivedRows(f, c.k, p);
    ST.TwoBitAgrees(c, t);
    CopiesEqualIff(c, f, t);
  }

  /**
   Of every non-empty tensor the payload encodes and decodes, and the peer's copy is exactly what
   the sender takes for sent unless all values of the tensor look two-bit and a zero was sent for
   one of its entries.
   */
  lemma PeerAgreesIff(c: ST.Settings, f: Float32, t: ST.Tensor)
    requires ST.Valid(c) && c.twoBit && |t.data| > 0
    requires Fits(c.k, ST.Encode(c, t)) && Carries(f, c.round)
    ensures var w := ToWire(f, c.k, ST.Encode(c, t));
            && EncodeOne(w).Ok? && DecodeOne(EncodeOne(w).value).Ok?
            && (PeerCopy(f, DecodeOne(EncodeOne(w).value).value.0) == ST.Dense(c, t) <==> !HidesEntry(c, t))
  {
    var w := ToWire(f, c.k, ST.Encode(c, t));
    CopyAgreesIff(c, f, t);
    DecodeEncode(w, []);
    assert EncodeOne(w).value + [] == EncodeOne(w).value;
  }
}
