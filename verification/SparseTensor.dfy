/** Compression of a whole tensor: the dense form the sender keeps and the payload a peer decodes. */
module SparseTensor {
  import opened Common
  import opened Reals
  import opened Chunks
  import opened Quantizer

  datatype Tensor = Tensor(shape: seq<nat>, data: Vec)

  /**
   The settings of the compressor. `topk` picks the places kept of a chunk, `cast` turns an entry into
   the integer sent when entries are not quantised to two bits, and `round` is how a scale is stored.
   */
  datatype Settings = Settings(
    chunk: nat, k: nat, twoBit: bool, topk: Vec -> seq<int>, cast: real -> int, round: Rounding)

  ghost predicate Valid(c: Settings)
  {
    && 1 <= c.k <= c.chunk && c.cast(0.0) == 0
    && forall v: Vec {:trigger c.topk(v)} :: |v| == c.chunk ==> IsTopK(v, c.topk(v), c.k)
  }

  /** The number of places kept follows from the density, and the selection picks that many. */
  ghost predicate FromDensity(c: Settings, density: real)
  {
    && c.chunk >= 1 && c.k as int == KeepCount(c.chunk, density) && c.cast(0.0) == 0
    && forall v: Vec {:trigger c.topk(v)} :: |v| == c.chunk ==> IsTopK(v, c.topk(v), c.k)
  }

  /** Every density up to one gives valid settings. */
  lemma DensityValid(c: Settings, density: real)
    requires FromDensity(c, density) && 0.0 <= density <= 1.0
    ensures Valid(c)
  {
    KeepCountFits(c.chunk, density);
  }

  datatype SparsePayload = SparsePayload(rows: seq<Packed>, pad: nat, shape: seq<nat>, chunk: nat)

  function Casts(c: Settings, sel: Vec): (q: seq<int>)
    ensures |q| == |sel|
  {
    seq(|sel|, i requires 0 <= i < |sel| => c.cast(sel[i]))
  }

  /** What is sent of a chunk. */
  function Row(c: Settings, v: Vec): Packed
  {
    var idx := c.topk(v);
    if !Inside(idx, |v|) then Packed([], [], 1.0)
    else if c.twoBit then PackChunk(c.round, v, idx)
    else Packed(idx, Casts(c, Selected(v, idx)), 1.0)
  }

  /** What the sender takes for sent of a chunk. */
  function DenseChunk(c: Settings, v: Vec): (d: Vec)
    ensures |d| == |v|
  {
    var idx := c.topk(v);
    if !Inside(idx, |v|) then Zeros(|v|)
    else Scatter(|v|, idx, if c.twoBit then Sent(c.round, v, idx) else Selected(v, idx))
  }

  /** A row written out as a chunk. */
  function WriteOut(chunk: nat, r: Packed): (d: Vec)
    ensures |d| == chunk
  {
    if Sound(r, chunk) then UnpackChunk(r, chunk) else Zeros(chunk)
  }

  function RowOf(c: Settings): Vec -> Packed { (v: Vec) => Row(c, v) }

  function DenseOf(c: Settings): Vec -> Vec { (v: Vec) => DenseChunk(c, v) }

  function ChunkOf(chunk: nat): Packed -> Vec { (r: Packed) => WriteOut(chunk, r) }

  /** What the receiver makes of what is sent of a chunk. */
  function GotOf(c: Settings): Vec -> Vec { (v: Vec) => WriteOut(c.chunk, Row(c, v)) }

  function Encode(c: Settings, t: Tensor): SparsePayload
    requires c.chunk >= 1
  {
    SparsePayload(MapRows(c.chunk, RowOf(c), Padded(c.chunk, t.data)), Pad(|t.data|, c.chunk), t.shape, c.chunk)
  }

  /** The tensor that the sender takes for transmitted, cut from the padded one. */
  function Dense(c: Settings, t: Tensor): Tensor
    requires c.chunk >= 1
  {
    var flat := MapChunks(c.chunk, DenseOf(c), Padded(c.chunk, t.data));
    Tensor(t.shape, CutPad(flat, Pad(|t.data|, c.chunk)))
  }

  function CutPad(flat: Vec, pad: nat): Vec { if pad <= |flat| then flat[..|flat| - pad] else [] }

  /** The tensor a receiver makes of a payload. */
  function Decode(p: SparsePayload): Tensor
  {
    Tensor(p.shape, CutPad(Expand(ChunkOf(p.chunk), p.rows), p.pad))
  }

  lemma DenseKeepsSize(c: Settings)
    ensures KeepsSize(c.chunk, DenseOf(c)) && KeepsSize(c.chunk, GotOf(c))
  {
    var f, u := DenseOf(c), GotOf(c);
    forall v: Vec | |v| == c.chunk ensures |f(v)| == c.chunk && |u(v)| == c.chunk {
      assert f(v) == DenseChunk(c, v) && u(v) == WriteOut(c.chunk, Row(c, v));
    }
  }

  lemma DenseLength(c: Settings, t: Tensor)
    requires c.chunk >= 1
    ensures |MapChunks(c.chunk, DenseOf(c), Padded(c.chunk, t.data))| == |t.data| + Pad(|t.data|, c.chunk)
    ensures |Dense(c, t).data| == |t.data|
  {
    PaddedWhole(c.chunk, t.data);
    DenseKeepsSize(c);
    MapLength(c.chunk, DenseOf(c), Padded(c.chunk, t.data));
  }

  // ------------------------------------------------------------------------
  // Sender and receiver
  // ------------------------------------------------------------------------

  /** Entries go out quantised, or every entry selected from the chunk equals the integer it is cast to. */
  predicate Exact(c: Settings, v: Vec)
  {
    c.twoBit ||
    (Inside(c.topk(v), |v|) &&
     forall i :: 0 <= i < |c.topk(v)| ==> c.cast(v[c.topk(v)[i]]) as real == v[c.topk(v)[i]])
  }

  function ExactOf(c: Settings): Vec -> bool { (v: Vec) => Exact(c, v) }

  lemma ScatterInjective(n: nat, idx: seq<int>, a: Vec, b: Vec)
    requires |idx| == |a| == |b| && Inside(idx, n) && Distinct(idx)
    ensures Scatter(n, idx, a) == Scatter(n, idx, b) <==> a == b
  {
    if Scatter(n, idx, a) == Scatter(n, idx, b) {
      forall i | 0 <= i < |idx| ensures a[i] == b[i] {
        ScatterAt(n, idx, a, i);
        ScatterAt(n, idx, b, i);
      }
    }
  }

  lemma ChunkAgrees(c: Settings, v: Vec)
    requires IsTopK(v, c.topk(v), c.k) && |v| == c.chunk
    ensures WriteOut(c.chunk, Row(c, v)) == DenseChunk(c, v) <==> Exact(c, v)
  {
    var idx := c.topk(v);
    var row := Row(c, v);
    if !c.twoBit {
      var got, sent := Dequants(row.q, row.scale), Selected(v, idx);
      ScatterInjective(c.chunk, idx, got, sent);
      assert forall i :: 0 <= i < c.k ==> got[i] == c.cast(v[idx[i]]) as real && sent[i] == v[idx[i]];
    }
  }

  lemma EveryChunkAgrees(c: Settings, f: Vec -> Vec, g: Vec -> Packed, h: Packed -> Vec, good: Vec -> bool)
    requires Valid(c) && f == DenseOf(c) && g == RowOf(c) && h == ChunkOf(c.chunk) && good == ExactOf(c)
    ensures forall v {:trigger f(v)} :: |v| == c.chunk ==> |h(g(v))| == |f(v)| && (good(v) <==> h(g(v)) == f(v))
  {
    forall v: Vec | |v| == c.chunk ensures |h(g(v))| == |f(v)| && (good(v) <==> h(g(v)) == f(v)) {
      assert f(v) == DenseChunk(c, v) && g(v) == Row(c, v) && h(g(v)) == WriteOut(c.chunk, Row(c, v));
      assert good(v) == Exact(c, v);
      ChunkAgrees(c, v);
    }
  }

  lemma {:induction false} RowsAgree(c: Settings, p: Vec)
    requires Valid(c) && Whole(|p|, c.chunk)
    ensures Expand(ChunkOf(c.chunk), MapRows(c.chunk, RowOf(c), p)) == MapChunks(c.chunk, DenseOf(c), p)
       <==> AllChunks(c.chunk, ExactOf(c), p)
  {
    EveryChunkAgrees(c, DenseOf(c), RowOf(c), ChunkOf(c.chunk), ExactOf(c));
    ExpandAgrees(c.chunk, RowOf(c), ChunkOf(c.chunk), DenseOf(c), ExactOf(c), p);
  }

  lemma ChunkZeroStaysZero(c: Settings, v: Vec, j: nat)
    requires IsTopK(v, c.topk(v), c.k) && c.cast(0.0) == 0 && !c.twoBit && |v| == c.chunk && j < c.chunk && v[j] == 0.0
    ensures WriteOut(c.chunk, Row(c, v))[j] == 0.0 && DenseChunk(c, v)[j] == 0.0
  {
    var idx := c.topk(v);
    var row := Row(c, v);
    var got, sent := Dequants(row.q, row.scale), Selected(v, idx);
    if j in idx {
      var i :| 0 <= i < |idx| && idx[i] == j;
      ScatterAt(c.chunk, idx, got, i);
      ScatterAt(c.chunk, idx, sent, i);
    } else {
      ScatterElsewhere(c.chunk, idx, got, j);
      ScatterElsewhere(c.chunk, idx, sent, j);
    }
  }

  lemma CastsKeepZeros(c: Settings)
    requires Valid(c) && !c.twoBit
    ensures KeepsZeros(c.chunk, DenseOf(c)) && KeepsZeros(c.chunk, GotOf(c))
  {
    var f, u := DenseOf(c), GotOf(c);
    DenseKeepsSize(c);
    forall v: Vec, j | |v| == c.chunk && 0 <= j < c.chunk && v[j] == 0.0 ensures f(v)[j] == 0.0 && u(v)[j] == 0.0 {
      assert f(v) == DenseChunk(c, v) && u(v) == WriteOut(c.chunk, Row(c, v));
      ChunkZeroStaysZero(c, v, j);
    }
  }

  /** Where only zeros follow the first `n` entries, those entries decide the equality of two chunk-wise maps. */
  lemma PrefixDecides(chunk: nat, f: Vec -> Vec, u: Vec -> Vec, p: Vec, n: nat, a: Vec, b: Vec)
    requires chunk >= 1 && KeepsZeros(chunk, f) && KeepsZeros(chunk, u) && Whole(|p|, chunk)
    requires n <= |p| && forall j :: n <= j < |p| ==> p[j] == 0.0
    requires a == MapChunks(chunk, f, p) && b == MapChunks(chunk, u, p) && |a| == |b| == |p|
    requires a[..n] == b[..n]
    ensures a == b
  {
    forall j | 0 <= j < |p| ensures a[j] == b[j] {
      if j < n {
        assert a[j] == a[..n][j] && b[j] == b[..n][j];
      } else {
        ZeroStaysZero(chunk, f, p, j);
        ZeroStaysZero(chunk, u, p, j);
      }
    }
  }

  lemma {:induction false} ExpandIsGot(c: Settings, p: Vec)
    requires c.chunk >= 1
    ensures Expand(ChunkOf(c.chunk), MapRows(c.chunk, RowOf(c), p)) == MapChunks(c.chunk, GotOf(c), p)
    decreases |p|
  {
    if |p| >= c.chunk {
      var rows := MapRows(c.chunk, RowOf(c), p);
      assert rows[0] == Row(c, p[..c.chunk]) && rows[1..] == MapRows(c.chunk, RowOf(c), p[c.chunk..]);
      ExpandIsGot(c, p[c.chunk..]);
    }
  }

  lemma FlatAgree(c: Settings, p: Vec, n: nat)
    requires Valid(c) && Whole(|p|, c.chunk) && n <= |p| && forall j :: n <= j < |p| ==> p[j] == 0.0
    ensures var got, sent := Expand(ChunkOf(c.chunk), MapRows(c.chunk, RowOf(c), p)), MapChunks(c.chunk, DenseOf(c), p);
            && |got| == |sent| == |p|
            && (got[..n] == sent[..n] <==> AllChunks(c.chunk, ExactOf(c), p))
  {
    var got, sent := MapChunks(c.chunk, GotOf(c), p), MapChunks(c.chunk, DenseOf(c), p);
    DenseKeepsSize(c);
    ExpandIsGot(c, p);
    MapLength(c.chunk, GotOf(c), p);
    MapLength(c.chunk, DenseOf(c), p);
    RowsAgree(c, p);
    if c.twoBit {
      ExactEverywhere(c, p);
    } else if got[..n] == sent[..n] {
      CastsKeepZeros(c);
      PrefixDecides(c.chunk, GotOf(c), DenseOf(c), p, n, got, sent);
    }
  }

  /**
   What a receiver decodes is exactly what the sender takes for sent: always with two-bit
   quantisation, and otherwise exactly when every selected entry survives its cast.
   */
  lemma SenderReceiverAgree(c: Settings, t: Tensor)
    requires Valid(c)
    ensures Decode(Encode(c, t)) == Dense(c, t) <==> AllChunks(c.chunk, ExactOf(c), Padded(c.chunk, t.data))
  {
    PaddedWhole(c.chunk, t.data);
    FlatAgree(c, Padded(c.chunk, t.data), |t.data|);
  }

  lemma {:induction false} ExactEverywhere(c: Settings, p: Vec)
    requires c.chunk >= 1 && c.twoBit
    ensures AllChunks(c.chunk, ExactOf(c), p)
    decreases |p|
  {
    if |p| >= c.chunk {
      ExactEverywhere(c, p[c.chunk..]);
    }
  }

  /** With two-bit quantisation the receiver always holds what the sender takes for sent. */
  lemma TwoBitAgrees(c: Settings, t: Tensor)
    requires Valid(c) && c.twoBit
    ensures Decode(Encode(c, t)) == Dense(c, t)
  {
    SenderReceiverAgree(c, t);
    ExactEverywhere(c, Padded(c.chunk, t.data));
  }

  // ------------------------------------------------------------------------
  // What is lost of a tensor
  // ------------------------------------------------------------------------

  /** The square of the floor for a chunk whose largest magnitude stays below the floor. */
  function Slack(v: Vec): (s: real)
    ensures s >= 0.0
  {
    if AMax(v) >= FLOOR then 0.0 else FLOOR * FLOOR
  }

  lemma OneChunkShrinks(c: Settings, delta: real, v: Vec)
    requires IsTopK(v, c.topk(v), c.k) && c.k >= 1 && c.twoBit && |v| == c.chunk >= 1 && Accurate(c.round, delta)
    ensures Shrinks(Rate(c.chunk, delta), v, DenseChunk(c, v), Slack(v))
  {
    var idx := c.topk(v);
    assert Sub(v, DenseChunk(c, v)) == Residual(v, idx, Sent(c.round, v, idx));
    if AMax(v) >= FLOOR {
      ChunkContraction(c.round, delta, v, idx, c.k);
    } else {
      ChunkContractionUpToFloor(c.round, delta, v, idx, c.k);
    }
  }

  lemma OneChunkNoneGrows(c: Settings, v: Vec)
    requires IsTopK(v, c.topk(v), c.k) && c.twoBit && |v| == c.chunk
    ensures NoneGrows(v, DenseChunk(c, v))
  {
    var idx := c.topk(v);
    assert Sub(v, DenseChunk(c, v)) == Residual(v, idx, Sent(c.round, v, idx));
    SentNeverWorse(c.round, v, idx);
    ResidualDominated(v, idx, Sent(c.round, v, idx));
  }

  lemma EveryChunkShrinks(c: Settings, delta: real, rate: real, f: Vec -> Vec)
    requires Valid(c) && c.twoBit && Accurate(c.round, delta) && rate == Rate(c.chunk, delta) && f == DenseOf(c)
    ensures AllShrink(c.chunk, rate, f, Slack)
    ensures forall v: Vec {:trigger f(v)} :: |v| == c.chunk ==> NoneGrows(v, f(v))
  {
    forall v: Vec | |v| == c.chunk ensures Shrinks(rate, v, f(v), Slack(v)) && NoneGrows(v, f(v)) {
      assert f(v) == DenseChunk(c, v);
      OneChunkShrinks(c, delta, v);
      OneChunkNoneGrows(c, v);
    }
  }

  /**
   For every tensor, shape and padding: no entry of what is left over exceeds the entry it comes
   from, and the sum of squares shrinks by the factor 1 - 1/Rate (1 - 1/C when scales are exact), up
   to the square of the floor for each chunk that stays below the floor.
   */
  lemma TensorContraction(c: Settings, delta: real, t: Tensor)
    requires Valid(c) && c.twoBit && Accurate(c.round, delta)
    ensures NoneGrows(t.data, Dense(c, t).data)
    ensures Shrinks(Rate(c.chunk, delta), t.data, Dense(c, t).data, Total(c.chunk, Slack, Padded(c.chunk, t.data)))
  {
    var p, f, rate := Padded(c.chunk, t.data), DenseOf(c), Rate(c.chunk, delta);
    PaddedWhole(c.chunk, t.data);
    DenseLength(c, t);
    EveryChunkShrinks(c, delta, rate, f);
    MapShrinks(c.chunk, rate, f, Slack, p);
    MapNoneGrows(c.chunk, f, p);
    var d := MapChunks(c.chunk, f, p);
    PaddedShrinks(c.chunk, rate, t.data, d, Total(c.chunk, Slack, p));
    PaddedNoneGrows(c.chunk, t.data, d);
  }

  /** The slack is never negative and counts each chunk at most once. */
  lemma {:induction false} SlackBound(c: Settings, p: Vec)
    requires c.chunk >= 1
    ensures 0.0 <= Total(c.chunk, Slack, p) <= |MapRows(c.chunk, RowOf(c), p)| as real * (FLOOR * FLOOR)
    decreases |p|
  {
    if |p| >= c.chunk {
      SlackBound(c, p[c.chunk..]);
    }
  }
}
