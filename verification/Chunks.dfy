/** Vectors cut into chunks of one size, the last one filled up with zeros. */
module Chunks {
  import opened Modulo
  import opened Reals

  function Pad(n: nat, chunk: nat): nat
    requires chunk >= 1
  {
    (chunk - n % chunk) % chunk
  }

  /** `n` is a whole number of chunks. */
  predicate Whole(n: nat, chunk: nat)
    requires chunk >= 1
  {
    n == 0 || (n >= chunk && Whole(n - chunk, chunk))
  }

  function PadOf(r: nat, chunk: nat): nat
    requires r < chunk
  {
    if r == 0 then 0 else chunk - r
  }

  lemma PadIs(n: nat, chunk: nat)
    requires chunk >= 1
    ensures Pad(n, chunk) == PadOf(n % chunk, chunk)
  {
    var r := n % chunk;
    if r == 0 {
      assert chunk % chunk == 0;
    } else {
      assert (chunk - r) % chunk == chunk - r;
    }
  }

  /** The padding fills the last chunk and is less than a chunk. */
  lemma {:induction false} PadFills(n: nat, chunk: nat)
    requires chunk >= 1
    ensures Whole(n + Pad(n, chunk), chunk) && Pad(n, chunk) < chunk
    decreases n
  {
    PadIs(n, chunk);
    if n < chunk {
      assert n % chunk == n;
    } else {
      ModStep(n, chunk, (n - chunk) % chunk, n % chunk);
      PadIs(n - chunk, chunk);
      PadFills(n - chunk, chunk);
    }
  }

  function Padded(chunk: nat, x: Vec): (p: Vec)
    requires chunk >= 1
  {
    x + Zeros(Pad(|x|, chunk))
  }

  lemma PaddedWhole(chunk: nat, x: Vec)
    requires chunk >= 1
    ensures Whole(|Padded(chunk, x)|, chunk) && |Padded(chunk, x)| == |x| + Pad(|x|, chunk)
  {
    PadFills(|x|, chunk);
  }

  // ------------------------------------------------------------------------
  // Chunk by chunk
  // ------------------------------------------------------------------------

  function MapRows<R>(chunk: nat, g: Vec -> R, p: Vec): seq<R>
    requires chunk >= 1
    decreases |p|
  {
    if |p| < chunk then [] else [g(p[..chunk])] + MapRows(chunk, g, p[chunk..])
  }

  function MapChunks(chunk: nat, f: Vec -> Vec, p: Vec): Vec
    requires chunk >= 1
    decreases |p|
  {
    if |p| < chunk then [] else f(p[..chunk]) + MapChunks(chunk, f, p[chunk..])
  }

  function Expand<R>(h: R -> Vec, rows: seq<R>): Vec
    decreases |rows|
  {
    if rows == [] then [] else h(rows[0]) + Expand(h, rows[1..])
  }

  predicate AllChunks(chunk: nat, good: Vec -> bool, p: Vec)
    requires chunk >= 1
    decreases |p|
  {
    |p| >= chunk ==> good(p[..chunk]) && AllChunks(chunk, good, p[chunk..])
  }

  /** `f` turns chunks into chunks. */
  ghost predicate KeepsSize(chunk: nat, f: Vec -> Vec) { forall v {:trigger f(v)} :: |v| == chunk ==> |f(v)| == chunk }

  lemma {:induction false} MapLength(chunk: nat, f: Vec -> Vec, p: Vec)
    requires chunk >= 1 && KeepsSize(chunk, f) && Whole(|p|, chunk)
    ensures |MapChunks(chunk, f, p)| == |p|
    decreases |p|
  {
    if |p| > 0 {
      MapLength(chunk, f, p[chunk..]);
    }
  }

  lemma SplitEqual(a: Vec, b: Vec, x: Vec, y: Vec)
    requires |a| == |x|
    ensures a + b == x + y <==> a == x && b == y
  {
    if a + b == x + y {
      assert a == (a + b)[..|a|] && b == (a + b)[|a|..];
      assert x == (x + y)[..|a|] && y == (x + y)[|a|..];
    }
  }

  /** Expanding rows agrees with mapping chunks exactly when it does so on every chunk. */
  lemma {:induction false} ExpandAgrees<R>(chunk: nat, g: Vec -> R, h: R -> Vec, f: Vec -> Vec, good: Vec -> bool,
                                           p: Vec)
    requires chunk >= 1 && Whole(|p|, chunk)
    requires forall v {:trigger f(v)} :: |v| == chunk ==> |h(g(v))| == |f(v)| && (good(v) <==> h(g(v)) == f(v))
    ensures Expand(h, MapRows(chunk, g, p)) == MapChunks(chunk, f, p) <==> AllChunks(chunk, good, p)
    decreases |p|
  {
    if |p| > 0 {
      var v, tail := p[..chunk], p[chunk..];
      var rows := MapRows(chunk, g, p);
      assert rows[0] == g(v) && rows[1..] == MapRows(chunk, g, tail);
      ExpandAgrees(chunk, g, h, f, good, tail);
      SplitEqual(h(g(v)), Expand(h, MapRows(chunk, g, tail)), f(v), MapChunks(chunk, f, tail));
    }
  }

  /** `f` leaves a zero entry zero. */
  ghost predicate KeepsZeros(chunk: nat, f: Vec -> Vec)
  {
    KeepsSize(chunk, f) && forall v, j {:trigger f(v)[j]} :: |v| == chunk && 0 <= j < chunk && v[j] == 0.0 ==>
      f(v)[j] == 0.0
  }

  lemma {:induction false} ZeroStaysZero(chunk: nat, f: Vec -> Vec, p: Vec, j: nat)
    requires chunk >= 1 && KeepsZeros(chunk, f) && Whole(|p|, chunk) && j < |p| && p[j] == 0.0
    ensures |MapChunks(chunk, f, p)| == |p| && MapChunks(chunk, f, p)[j] == 0.0
    decreases |p|
  {
    MapLength(chunk, f, p);
    var v, tail := p[..chunk], p[chunk..];
    if j < chunk {
      assert v[j] == 0.0 && f(v)[j] == 0.0;
    } else {
      assert tail[j - chunk] == p[j];
      ZeroStaysZero(chunk, f, tail, j - chunk);
    }
  }

  // ------------------------------------------------------------------------
  // Lossy chunks
  // ------------------------------------------------------------------------

  /** The sum of squares of what is left is less by the factor 1 - 1/rate, up to `slack`. */
  ghost predicate Shrinks(rate: real, v: Vec, d: Vec, slack: real)
    requires rate >= 1.0
  {
    |d| == |v| && SumSq(Sub(v, d)) <= SumSq(v) - SumSq(v) / rate + slack
  }

  ghost predicate NoneGrows(v: Vec, d: Vec) { |d| == |v| && Dominated(Sub(v, d), v) }

  ghost predicate AllShrink(chunk: nat, rate: real, f: Vec -> Vec, slack: Vec -> real)
    requires rate >= 1.0
  {
    forall v {:trigger f(v)} :: |v| == chunk ==> Shrinks(rate, v, f(v), slack(v))
  }

  function Total(chunk: nat, slack: Vec -> real, p: Vec): real
    requires chunk >= 1
    decreases |p|
  {
    if |p| < chunk then 0.0 else slack(p[..chunk]) + Total(chunk, slack, p[chunk..])
  }

  lemma AddShares(a: real, b: real, n: real)
    requires n >= 1.0
    ensures (a + b) / n == a / n + b / n
  {
  }

  lemma SubConcat(a: Vec, b: Vec, x: Vec, y: Vec)
    requires |a| == |x| && |b| == |y|
    ensures Sub(a + b, x + y) == Sub(a, x) + Sub(b, y)
  {
  }

  lemma CombineSums(r1: real, s1: real, e1: real, r2: real, s2: real, e2: real, n: real)
    requires n >= 1.0 && r1 <= s1 - s1 / n + e1 && r2 <= s2 - s2 / n + e2
    ensures r1 + r2 <= (s1 + s2) - (s1 + s2) / n + (e1 + e2)
  {
    AddShares(s1, s2, n);
  }

  lemma CombineChunks(rate: real, v: Vec, d: Vec, e1: real, w: Vec, e: Vec, e2: real)
    requires rate >= 1.0 && Shrinks(rate, v, d, e1) && Shrinks(rate, w, e, e2)
    ensures Shrinks(rate, v + w, d + e, e1 + e2)
  {
    SubConcat(v, w, d, e);
    SumSqConcat(v, w);
    SumSqConcat(Sub(v, d), Sub(w, e));
    CombineSums(SumSq(Sub(v, d)), SumSq(v), e1, SumSq(Sub(w, e)), SumSq(w), e2, rate);
  }

  lemma NothingShrinks(rate: real, p: Vec)
    requires rate >= 1.0 && |p| == 0
    ensures Shrinks(rate, p, [], 0.0)
  {
    assert Sub(p, []) == [];
    assert 0.0 / rate == 0.0;
  }

  lemma {:induction false} MapShrinks(chunk: nat, rate: real, f: Vec -> Vec, slack: Vec -> real, p: Vec)
    requires chunk >= 1 && rate >= 1.0 && AllShrink(chunk, rate, f, slack) && Whole(|p|, chunk)
    ensures Shrinks(rate, p, MapChunks(chunk, f, p), Total(chunk, slack, p))
    decreases |p|
  {
    if |p| == 0 {
      NothingShrinks(rate, p);
    } else {
      var v, tail := p[..chunk], p[chunk..];
      assert Shrinks(rate, v, f(v), slack(v));
      MapShrinks(chunk, rate, f, slack, tail);
      CombineChunks(rate, v, f(v), slack(v), tail, MapChunks(chunk, f, tail), Total(chunk, slack, tail));
      assert v + tail == p;
    }
  }

  lemma CombineDominated(v: Vec, d: Vec, w: Vec, e: Vec)
    requires NoneGrows(v, d) && NoneGrows(w, e)
    ensures NoneGrows(v + w, d + e)
  {
    SubConcat(v, w, d, e);
  }

  lemma {:induction false} MapNoneGrows(chunk: nat, f: Vec -> Vec, p: Vec)
    requires chunk >= 1 && Whole(|p|, chunk) && forall v {:trigger f(v)} :: |v| == chunk ==> NoneGrows(v, f(v))
    ensures NoneGrows(p, MapChunks(chunk, f, p))
    decreases |p|
  {
    if |p| > 0 {
      var v, tail := p[..chunk], p[chunk..];
      MapNoneGrows(chunk, f, tail);
      CombineDominated(v, f(v), tail, MapChunks(chunk, f, tail));
      assert v + tail == p;
    }
  }

  /** Padding does not count: the bounds hold of the vector itself. */
  lemma PaddedShrinks(chunk: nat, rate: real, x: Vec, d: Vec, slack: real)
    requires chunk >= 1 && rate >= 1.0 && Shrinks(rate, Padded(chunk, x), d, slack)
    ensures |x| <= |d| && Shrinks(rate, x, d[..|x|], slack)
  {
    var z := Zeros(Pad(|x|, chunk));
    var left := Sub(x, d[..|x|]);
    assert d == d[..|x|] + d[|x|..];
    SubConcat(x, z, d[..|x|], d[|x|..]);
    SumSqConcat(left, Sub(z, d[|x|..]));
    SumSqConcat(x, z);
    SumSqZeros(|z|);
  }

  lemma PaddedNoneGrows(chunk: nat, x: Vec, d: Vec)
    requires chunk >= 1 && NoneGrows(Padded(chunk, x), d)
    ensures |x| <= |d| && NoneGrows(x, d[..|x|])
  {
    var left := Sub(x, d[..|x|]);
    var p := Padded(chunk, x);
    forall i | 0 <= i < |x| ensures Abs(left[i]) <= Abs(x[i]) {
      assert left[i] == Sub(p, d)[i] && x[i] == p[i];
    }
  }
}
