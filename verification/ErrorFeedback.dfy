/** Error feedback: what compression leaves out of one step is added to the next. */
module ErrorFeedback {
  import opened Reals
  import opened Chunks
  import opened Mean
  import opened Quantizer
  import ST = SparseTensor

  type Name = string

  /** A compressor: the vector it takes for sent, and the payload it sends of a tensor. */
  datatype Compressor = Compressor(dense: Vec -> Vec, pack: ST.Tensor -> ST.SparsePayload)

  ghost predicate KeepsLength(dense: Vec -> Vec) { forall x {:trigger dense(x)} :: |dense(x)| == |x| }

  /** The buffer, decayed, with the new difference added. */
  function Accumulated(beta: real, ef: Vec, delta: Vec): (a: Vec)
    requires |ef| == |delta|
    ensures |a| == |ef|
  {
    Add(Scaled(beta, ef), delta)
  }

  function SentNow(dense: Vec -> Vec, beta: real, ef: Vec, delta: Vec): (d: Vec)
    requires KeepsLength(dense) && |ef| == |delta|
    ensures |d| == |ef|
  {
    dense(Accumulated(beta, ef, delta))
  }

  function NextBuffer(dense: Vec -> Vec, beta: real, ef: Vec, delta: Vec): (r: Vec)
    requires KeepsLength(dense) && |ef| == |delta|
    ensures |r| == |ef|
  {
    Sub(Accumulated(beta, ef, delta), SentNow(dense, beta, ef, delta))
  }

  // ------------------------------------------------------------------------
  // One compression of all parameters
  // ------------------------------------------------------------------------

  predicate DistinctNames(items: seq<(Name, ST.Tensor)>)
  {
    forall i, j :: 0 <= i < j < |items| ==> items[i].0 != items[j].0
  }

  /** Every difference has a buffer of its size. */
  predicate Buffered(ef: map<Name, Vec>, items: seq<(Name, ST.Tensor)>)
  {
    forall i :: 0 <= i < |items| ==> items[i].0 in ef && |ef[items[i].0]| == |items[i].1.data|
  }

  /** The difference has gone out, and its buffer holds what was not sent of it. */
  ghost predicate Compressed(comp: Compressor, beta: real, was: map<Name, Vec>, item: (Name, ST.Tensor),
                             ef: map<Name, Vec>, dense: map<Name, Vec>, payloads: map<Name, ST.SparsePayload>)
    requires KeepsLength(comp.dense)
  {
    var (name, d) := item;
    && name in was && |was[name]| == |d.data| && name in ef &&
      ef[name] == NextBuffer(comp.dense, beta, was[name], d.data)
    && name in dense && dense[name] == SentNow(comp.dense, beta, was[name], d.data)
    && name in payloads && payloads[name] == comp.pack(ST.Tensor(d.shape, Accumulated(beta, was[name], d.data)))
  }

  function Names(items: seq<(Name, ST.Tensor)>): set<Name>
  {
    if items == [] then {} else Names(items[..|items| - 1]) + {items[|items| - 1].0}
  }

  lemma {:induction false} NotAmongNames(items: seq<(Name, ST.Tensor)>, n: nat, i: nat)
    requires DistinctNames(items) && n <= i < |items|
    ensures items[i].0 !in Names(items[..n])
    decreases n
  {
    if n > 0 {
      NotAmongNames(items, n - 1, i);
      assert items[..n][..n - 1] == items[..n - 1];
    }
  }

  class Feedback {
    var ef: map<Name, Vec>

    constructor (zero: map<Name, Vec>)
      ensures ef == zero
    {
      ef := zero;
    }

    /** Compresses one difference and leaves in its buffer what was not sent. */
    method CompressOne(comp: Compressor, beta: real, name: Name, d: ST.Tensor)
      returns (sent: Vec, payload: ST.SparsePayload)
      requires KeepsLength(comp.dense) && name in ef && |ef[name]| == |d.data|
      modifies this
      ensures ef == old(ef)[name := NextBuffer(comp.dense, beta, old(ef)[name], d.data)]
      ensures sent == SentNow(comp.dense, beta, old(ef)[name], d.data)
      ensures payload == comp.pack(ST.Tensor(d.shape, Accumulated(beta, old(ef)[name], d.data)))
    {
      var acc := Accumulated(beta, ef[name], d.data);
      ef := ef[name := acc];
      sent := comp.dense(acc);
      payload := comp.pack(ST.Tensor(d.shape, acc));
      ef := ef[name := Sub(acc, sent)];
    }

    /** Compresses every parameter's difference; buffers without a difference stay as they are. */
    method Compress(comp: Compressor, beta: real, items: seq<(Name, ST.Tensor)>)
      returns (dense: map<Name, Vec>, payloads: map<Name, ST.SparsePayload>)
      requires KeepsLength(comp.dense) && DistinctNames(items) && Buffered(ef, items)
      modifies this
      ensures ef.Keys == old(ef).Keys && dense.Keys == payloads.Keys == Names(items)
      ensures forall i :: 0 <= i < |items| ==> Compressed(comp, beta, old(ef), items[i], ef, dense, payloads)
      ensures forall name :: name in ef && name !in Names(items) ==> ef[name] == old(ef)[name]
    {
      dense, payloads := map[], map[];
      for n := 0 to |items|
        invariant ef.Keys == old(ef).Keys && dense.Keys == payloads.Keys == Names(items[..n])
        invariant forall i :: 0 <= i < n ==> Compressed(comp, beta, old(ef), items[i], ef, dense, payloads)
        invariant forall name :: name in ef && name !in Names(items[..n]) ==> ef[name] == old(ef)[name]
      {
        var (name, d) := items[n];
        NotAmongNames(items, n, n);
        assert items[..n + 1][..n] == items[..n];
        ghost var ef0, dense0, payloads0 := ef, dense, payloads;
        var sent, payload := CompressOne(comp, beta, name, d);
        dense := dense[name := sent];
        payloads := payloads[name := payload];
        forall i | 0 <= i < n ensures Compressed(comp, beta, old(ef), items[i], ef, dense, payloads) {
          CompressedKept(comp, beta, old(ef), items[i], ef0, dense0, payloads0, ef, dense, payloads);
        }
      }
      assert items[..|items|] == items;
    }
  }

  lemma CompressedKept(comp: Compressor, beta: real, was: map<Name, Vec>, item: (Name, ST.Tensor),
                       ef0: map<Name, Vec>, dense0: map<Name, Vec>, payloads0: map<Name, ST.SparsePayload>,
                       ef: map<Name, Vec>, dense: map<Name, Vec>, payloads: map<Name, ST.SparsePayload>)
    requires KeepsLength(comp.dense) && Compressed(comp, beta, was, item, ef0, dense0, payloads0)
    requires item.0 in ef && ef[item.0] == ef0[item.0] && item.0 in dense && dense[item.0] == dense0[item.0]
    requires item.0 in payloads && payloads[item.0] == payloads0[item.0]
    ensures Compressed(comp, beta, was, item, ef, dense, payloads)
  {
  }

  // ------------------------------------------------------------------------
  // Whole runs of one parameter
  // ------------------------------------------------------------------------

  /** The buffer after all the differences have been compressed one after another. */
  function Buffer(dense: Vec -> Vec, beta: real, ef: Vec, deltas: seq<Vec>): (r: Vec)
    requires KeepsLength(dense) && SameSize(|ef|, deltas)
    ensures |r| == |ef|
    decreases |deltas|
  {
    if deltas == [] then ef
    else
      var n := |deltas| - 1;
      NextBuffer(dense, beta, Buffer(dense, beta, ef, deltas[..n]), deltas[n])
  }

  /** What was not sent of each difference: the difference less what went out with it. */
  function Unsent(dense: Vec -> Vec, beta: real, ef: Vec, deltas: seq<Vec>): (r: seq<Vec>)
    requires KeepsLength(dense) && SameSize(|ef|, deltas)
    ensures |r| == |deltas| && SameSize(|ef|, r)
    decreases |deltas|
  {
    if deltas == [] then []
    else
      var n := |deltas| - 1;
      Unsent(dense, beta, ef, deltas[..n]) +
        [Sub(deltas[n], SentNow(dense, beta, Buffer(dense, beta, ef, deltas[..n]), deltas[n]))]
  }

  function Pow(b: real, e: nat): real { if e == 0 then 1.0 else b * Pow(b, e - 1) }

  /** The vectors summed with weights beta^(T-1-t), the last one with weight one. */
  function Weighted(beta: real, n: nat, vs: seq<Vec>): (r: Vec)
    requires SameSize(n, vs)
    ensures |r| == n
    decreases |vs|
  {
    if vs == [] then Zeros(n) else Add(Scaled(Pow(beta, |vs| - 1), vs[0]), Weighted(beta, n, vs[1..]))
  }

  lemma WeightStep(beta: real, p: real, bp: real, x: Vec, tail: Vec, v: Vec)
    requires |x| == |tail| == |v| && bp == beta * p
    ensures Add(Scaled(bp, x), Add(Scaled(beta, tail), v)) == Add(Scaled(beta, Add(Scaled(p, x), tail)), v)
  {
    var a, b := Add(Scaled(bp, x), Add(Scaled(beta, tail), v)), Add(Scaled(beta, Add(Scaled(p, x), tail)), v);
    forall i | 0 <= i < |x| ensures a[i] == b[i] {
      Expanded(beta, p, x[i], tail[i]);
    }
  }

  lemma Expanded(beta: real, p: real, x: real, t: real)
    ensures (beta * p) * x + beta * t == beta * (p * x + t)
  {
  }

  lemma {:induction false} WeightedAppend(beta: real, n: nat, vs: seq<Vec>, v: Vec)
    requires SameSize(n, vs) && |v| == n
    ensures Weighted(beta, n, vs + [v]) == Add(Scaled(beta, Weighted(beta, n, vs)), v)
    decreases |vs|
  {
    if vs == [] {
      assert vs + [v] == [v];
      assert Weighted(beta, n, [v][1..]) == Zeros(n);
      assert Add(Scaled(1.0, v), Zeros(n)) == v == Add(Scaled(beta, Zeros(n)), v);
    } else {
      WeightedAppend(beta, n, vs[1..], v);
      assert (vs + [v])[1..] == vs[1..] + [v] && (vs + [v])[0] == vs[0];
      WeightStep(beta, Pow(beta, |vs| - 1), Pow(beta, |vs|), vs[0], Weighted(beta, n, vs[1..]), v);
    }
  }

  lemma MoveSent(a: Vec, d: Vec, sent: Vec)
    requires |a| == |d| == |sent|
    ensures Sub(Add(a, d), sent) == Add(a, Sub(d, sent))
  {
  }

  /**
   From a zero buffer, after any number of steps the buffer is the weighted sum of all that was
   not sent: the sum over t of beta^(T-1-t) (delta_t - sent_t).
   */
  lemma {:induction false} BufferIsWeightedSum(dense: Vec -> Vec, beta: real, n: nat, deltas: seq<Vec>)
    requires KeepsLength(dense) && SameSize(n, deltas)
    ensures Buffer(dense, beta, Zeros(n), deltas) == Weighted(beta, n, Unsent(dense, beta, Zeros(n), deltas))
    decreases |deltas|
  {
    if deltas != [] {
      var m := |deltas| - 1;
      var prev, d := Buffer(dense, beta, Zeros(n), deltas[..m]), deltas[m];
      var unsent, sent := Unsent(dense, beta, Zeros(n), deltas[..m]), SentNow(dense, beta, prev, d);
      BufferIsWeightedSum(dense, beta, n, deltas[..m]);
      WeightedAppend(beta, n, unsent, Sub(d, sent));
      MoveSent(Scaled(beta, prev), d, sent);
    }
  }

  lemma {:induction false} PowOne(e: nat)
    ensures Pow(1.0, e) == 1.0
  {
    if e > 0 {
      PowOne(e - 1);
    }
  }

  function Sum(n: nat, vs: seq<Vec>): (r: Vec)
    requires SameSize(n, vs)
    ensures |r| == n
    decreases |vs|
  {
    if vs == [] then Zeros(n) else Add(vs[0], Sum(n, vs[1..]))
  }

  lemma {:induction false} WeightedOne(n: nat, vs: seq<Vec>)
    requires SameSize(n, vs)
    ensures Weighted(1.0, n, vs) == Sum(n, vs)
    decreases |vs|
  {
    if vs != [] {
      PowOne(|vs| - 1);
      WeightedOne(n, vs[1..]);
      assert Scaled(1.0, vs[0]) == vs[0];
    }
  }

  /** Without decay nothing is lost: what is in the buffer is the sum of all that was not sent. */
  lemma NothingLostWithoutDecay(dense: Vec -> Vec, n: nat, deltas: seq<Vec>)
    requires KeepsLength(dense) && SameSize(n, deltas)
    ensures Buffer(dense, 1.0, Zeros(n), deltas) == Sum(n, Unsent(dense, 1.0, Zeros(n), deltas))
  {
    BufferIsWeightedSum(dense, 1.0, n, deltas);
    WeightedOne(n, Unsent(dense, 1.0, Zeros(n), deltas));
  }

  // ------------------------------------------------------------------------
  // The buffer stays bounded
  // ------------------------------------------------------------------------

  function CountChunks(n: nat, chunk: nat): nat
    requires chunk >= 1
  {
    if n < chunk then 0 else 1 + CountChunks(n - chunk, chunk)
  }

  lemma {:induction false} RowsCounted(chunk: nat, g: Vec -> Packed, p: Vec)
    requires chunk >= 1
    ensures |MapRows(chunk, g, p)| == CountChunks(|p|, chunk)
    decreases |p|
  {
    if |p| >= chunk {
      RowsCounted(chunk, g, p[chunk..]);
    }
  }

  /** At most the square of the floor for every chunk of a vector of length `n`. */
  function Epsilon(chunk: nat, n: nat): (e: real)
    requires chunk >= 1
    ensures e >= 0.0
  {
    CountChunks(n + Pad(n, chunk), chunk) as real * (FLOOR * FLOOR)
  }

  /** A square of a sum splits with any weight `t`. */
  lemma EntryOfSum(t: real, x: real, y: real)
    ensures t * Square(x + y) <= (t + 1.0) * Square(x) + t * (t + 1.0) * Square(y)
  {
    assert (t + 1.0) * Square(x) + t * (t + 1.0) * Square(y) - t * Square(x + y) == Square(x - t * y);
  }

  lemma EntryDecays(beta: real, bb: real, x: real, bx: real)
    requires bb == beta * beta && bx == beta * x
    ensures Square(bx) == bb * Square(x)
  {
    assert bx * bx == beta * beta * (x * x);
  }

  lemma EntryStep(t: real, bx: real, y: real, a: real)
    requires a == bx + y
    ensures Bounded(t, Square(a), Square(bx), Square(y))
  {
    EntryOfSum(t, bx, y);
  }

  lemma ScaledTail(beta: real, ef: Vec)
    requires ef != []
    ensures Scaled(beta, ef)[0] == beta * ef[0] && Scaled(beta, ef)[1..] == Scaled(beta, ef[1..])
  {
    var u, v := Scaled(beta, ef)[1..], Scaled(beta, ef[1..]);
    forall i | 0 <= i < |u| ensures u[i] == v[i] {
      assert u[i] == beta * ef[i + 1] && v[i] == beta * ef[1..][i];
    }
  }

  lemma DecayedStep(bb: real, b0: real, b1: real, e0: real, e1: real)
    requires b0 == bb * e0 && b1 == bb * e1
    ensures b0 + b1 == bb * (e0 + e1)
  {
  }

  lemma {:induction false} DecayedSumSq(beta: real, bb: real, ef: Vec)
    requires bb == beta * beta
    ensures SumSq(Scaled(beta, ef)) == bb * SumSq(ef)
    decreases |ef|
  {
    var v := Scaled(beta, ef);
    if ef != [] {
      DecayedSumSq(beta, bb, ef[1..]);
      ScaledTail(beta, ef);
      EntryDecays(beta, bb, ef[0], v[0]);
      DecayedStep(bb, Square(v[0]), SumSq(v[1..]), Square(ef[0]), SumSq(ef[1..]));
    } else {
      DecayedStep(bb, bb * 0.0, bb * 0.0, 0.0, 0.0);
    }
  }

  lemma Distribute(t: real, a0: real, a1: real, e0: real, e1: real, d0: real, d1: real)
    requires Bounded(t, a0, e0, d0) && Bounded(t, a1, e1, d1)
    ensures Bounded(t, a0 + a1, e0 + e1, d0 + d1)
  {
    var k := t * (t + 1.0);
    assert k * (d0 + d1) == k * d0 + k * d1;
  }

  /** The inequality of one entry, of one vector or of a sum of them, for the weight `t`. */
  predicate Bounded(t: real, a: real, e: real, d: real) { t * a <= (t + 1.0) * e + t * (t + 1.0) * d }

  lemma {:induction false} SumSqOfSum(t: real, x: Vec, d: Vec)
    requires |x| == |d|
    ensures Bounded(t, SumSq(Add(x, d)), SumSq(x), SumSq(d))
    decreases |x|
  {
    var a := Add(x, d);
    if x == [] {
      NothingAdded(t, SumSq(a), SumSq(x), SumSq(d));
    } else {
      SumSqOfSum(t, x[1..], d[1..]);
      assert a[1..] == Add(x[1..], d[1..]);
      EntryStep(t, x[0], d[0], a[0]);
      Distribute(t, Square(a[0]), SumSq(a[1..]), Square(x[0]), SumSq(x[1..]), Square(d[0]), SumSq(d[1..]));
    }
  }

  lemma NothingAdded(t: real, a: real, e: real, d: real)
    requires a == 0.0 && e == 0.0 && d == 0.0
    ensures Bounded(t, a, e, d)
  {
  }

  /** The squared lengths of one step: `s` before and `e` decayed, `d` added, `a` accumulated, `r` left over. */
  datatype Lengths = Lengths(s: real, e: real, d: real, a: real, r: real)

  /** What a step gains on the buffer: with weight `t` and squared decay `bb`. */
  function Room(c: real, bb: real, t: real): real { c * t - (c - 1.0) * (t + 1.0) * bb }

  /** What a step adds at most, for differences of squared length at most `g`. */
  function Load(c: real, t: real, g: real, eps: real): real { (c - 1.0) * (t * (t + 1.0)) * g + c * t * eps }

  /** Enough for every step to keep: the least such bound is the load over the room. */
  predicate Covers(c: real, bb: real, t: real, g: real, eps: real, b: real)
  {
    b * Room(c, bb, t) >= Load(c, t, g, eps)
  }

  lemma LessShare(c: real, a: real, r: real, eps: real)
    requires c >= 1.0 && r <= a - a / c + eps
    ensures c * r <= (c - 1.0) * a + c * eps
  {
    var h := a / c;
    assert c * h == a;
    MulMonotone(r, a - h + eps, c);
  }

  /** One step, multiplied out. */
  lemma StepMultiplied(c: real, t: real, x: real, a: real, r: real, eps: real)
    requires c >= 1.0 && t > 0.0 && t * a <= x && r <= a - a / c + eps
    ensures c * t * r <= (c - 1.0) * x + c * t * eps
  {
    LessShare(c, a, r, eps);
    var u := (c - 1.0) * a + c * eps;
    MulMonotone(c * r, u, t);
    MulMonotone(t * a, x, c - 1.0);
    assert u * t == (t * a) * (c - 1.0) + c * t * eps;
  }

  lemma RaiseTerms(k: real, m: real, s: real, b: real, d: real, g: real)
    requires k >= 0.0 && m >= 0.0 && s <= b && d <= g
    ensures k * s + m * d <= k * b + m * g
  {
    MulMonotone(s, b, k);
    MulMonotone(d, g, m);
  }

  lemma Cancel(k: real, r: real, b: real)
    requires k > 0.0 && k * r <= k * b
    ensures r <= b
  {
    if r > b {
      StrictProduct(k, r - b, k * (r - b));
    }
  }

  /** The terms of a step, as multiples `k` of the buffer and `m` of the difference. */
  lemma StepTerms(c: real, bb: real, t: real, s: real, e: real, d: real, k: real, m: real)
    requires e == bb * s && k == (c - 1.0) * (t + 1.0) * bb && m == (c - 1.0) * (t * (t + 1.0))
    ensures (c - 1.0) * ((t + 1.0) * e + t * (t + 1.0) * d) == k * s + m * d
  {
    assert (c - 1.0) * ((t + 1.0) * (bb * s)) == k * s;
    assert (c - 1.0) * (t * (t + 1.0) * d) == m * d;
  }

  lemma Coefficients(c: real, bb: real, t: real, k: real, m: real)
    requires c >= 1.0 && t > 0.0 && bb >= 0.0 && k == (c - 1.0) * (t + 1.0) * bb && m == (c - 1.0) * (t * (t + 1.0))
    ensures k >= 0.0 && m >= 0.0
  {
    var u, v := (c - 1.0) * (t + 1.0), t * (t + 1.0);
    MulMonotone(0.0, c - 1.0, t + 1.0);
    MulMonotone(0.0, u, bb);
    MulMonotone(0.0, t, t + 1.0);
    MulMonotone(0.0, c - 1.0, v);
  }

  /** From the terms of a step to the bound. */
  lemma TermsKeepBound(ct: real, k: real, m: real, s: real, d: real, r: real, g: real, cte: real, b: real)
    requires ct > 0.0 && k >= 0.0 && m >= 0.0 && s <= b && d <= g
    requires ct * r <= k * s + m * d + cte && b * (ct - k) >= m * g + cte
    ensures r <= b
  {
    RaiseTerms(k, m, s, b, d, g);
    assert b * (ct - k) == ct * b - k * b;
    Cancel(ct, r, b);
  }

  lemma StepInTerms(c: real, bb: real, t: real, l: Lengths, eps: real, k: real, m: real)
    requires c >= 1.0 && t > 0.0 && l.e == bb * l.s && Bounded(t, l.a, l.e, l.d) && l.r <= l.a - l.a / c + eps
    requires k == (c - 1.0) * (t + 1.0) * bb && m == (c - 1.0) * (t * (t + 1.0))
    ensures c * t * l.r <= k * l.s + m * l.d + c * t * eps
  {
    StepMultiplied(c, t, (t + 1.0) * l.e + t * (t + 1.0) * l.d, l.a, l.r, eps);
    StepTerms(c, bb, t, l.s, l.e, l.d, k, m);
  }

  /** A compressor that shrinks every vector of length `n` by the factor 1 - 1/C, up to `eps`; `c` stands for C. */
  ghost predicate Contractive(dense: Vec -> Vec, c: real, n: nat, eps: real)
    requires c >= 1.0
  {
    KeepsLength(dense) && forall x {:trigger dense(x)} :: |x| == n ==> Shrinks(c, x, dense(x), eps)
  }

  lemma StepLengths(dense: Vec -> Vec, c: real, beta: real, bb: real, t: real, ef: Vec, d: Vec, eps: real)
    returns (e: real, a: real, r: real)
    requires c >= 1.0 && Contractive(dense, c, |ef|, eps) && |ef| == |d| && bb == beta * beta && t > 0.0
    ensures e == bb * SumSq(ef) && Bounded(t, a, e, SumSq(d))
    ensures r == SumSq(NextBuffer(dense, beta, ef, d)) && r <= a - a / c + eps
  {
    var v, bx := Accumulated(beta, ef, d), Scaled(beta, ef);
    SumSqOfSum(t, bx, d);
    DecayedSumSq(beta, bb, ef);
    assert Shrinks(c, v, dense(v), eps);
    e, a, r := SumSq(bx), SumSq(v), SumSq(NextBuffer(dense, beta, ef, d));
  }

  /** What one step does to the squared lengths, as a relation between them. */
  function StepOf(c: real, bb: real, t: real, eps: real): Lengths -> bool
    requires c >= 1.0
  {
    (l: Lengths) => l.e == bb * l.s && Bounded(t, l.a, l.e, l.d) && l.r <= l.a - l.a / c + eps
  }

  /** Every step of the buffer is one of the relation. */
  ghost predicate Steps(dense: Vec -> Vec, beta: real, n: nat, step: Lengths -> bool)
    requires KeepsLength(dense)
  {
    forall ef: Vec, d: Vec {:trigger NextBuffer(dense, beta, ef, d)} :: |ef| == |d| == n ==>
      exists e, a :: step(Lengths(SumSq(ef), e, SumSq(d), a, SumSq(NextBuffer(dense, beta, ef, d))))
  }

  /** Every step of the relation keeps the bound. */
  ghost predicate Keeps(step: Lengths -> bool, g: real, b: real)
  {
    forall l: Lengths {:trigger step(l)} :: step(l) && l.s <= b && l.d <= g ==> l.r <= b
  }

  lemma BufferSteps(dense: Vec -> Vec, c: real, beta: real, bb: real, t: real, n: nat, eps: real, step: Lengths -> bool)
    requires c >= 1.0 && Contractive(dense, c, n, eps) && bb == beta * beta && t > 0.0 && step == StepOf(c, bb, t, eps)
    ensures Steps(dense, beta, n, step)
  {
    forall ef: Vec, d: Vec | |ef| == |d| == n
      ensures exists e, a :: step(Lengths(SumSq(ef), e, SumSq(d), a, SumSq(NextBuffer(dense, beta, ef, d))))
    {
      var e, a, r := StepLengths(dense, c, beta, bb, t, ef, d, eps);
      assert step(Lengths(SumSq(ef), e, SumSq(d), a, SumSq(NextBuffer(dense, beta, ef, d))));
    }
  }

  /** The same in terms of the buffer before, the difference and the buffer after. */
  function TermsOf(ct: real, k: real, m: real, cte: real): Lengths -> bool
  {
    (l: Lengths) => ct * l.r <= k * l.s + m * l.d + cte
  }

  ghost predicate Implies(step: Lengths -> bool, terms: Lengths -> bool)
  {
    forall l: Lengths {:trigger step(l)} :: step(l) ==> terms(l)
  }

  lemma StepImpliesTerms(c: real, bb: real, t: real, eps: real, step: Lengths -> bool, k: real, m: real,
                         terms: Lengths -> bool)
    requires c >= 1.0 && t > 0.0 && step == StepOf(c, bb, t, eps) && terms == TermsOf(c * t, k, m, c * t * eps)
    requires k == (c - 1.0) * (t + 1.0) * bb && m == (c - 1.0) * (t * (t + 1.0))
    ensures Implies(step, terms)
  {
    forall l: Lengths | step(l) ensures terms(l) {
      StepInTerms(c, bb, t, l, eps, k, m);
    }
  }

  lemma TermsKeep(ct: real, k: real, m: real, g: real, cte: real, b: real, terms: Lengths -> bool)
    requires ct > 0.0 && k >= 0.0 && m >= 0.0 && terms == TermsOf(ct, k, m, cte) && b * (ct - k) >= m * g + cte
    ensures Keeps(terms, g, b)
  {
    forall l: Lengths | terms(l) && l.s <= b && l.d <= g ensures l.r <= b {
      TermsKeepBound(ct, k, m, l.s, l.d, l.r, g, cte, b);
    }
  }

  lemma ImpliedKeeps(step: Lengths -> bool, terms: Lengths -> bool, g: real, b: real)
    requires Implies(step, terms) && Keeps(terms, g, b)
    ensures Keeps(step, g, b)
  {
  }

  lemma {:induction false} RunKeeps(dense: Vec -> Vec, beta: real, ef: Vec, deltas: seq<Vec>, step: Lengths -> bool,
                                    g: real, b: real)
    requires KeepsLength(dense) && SameSize(|ef|, deltas) && Steps(dense, beta, |ef|, step) && Keeps(step, g, b)
    requires SumSq(ef) <= b && forall i :: 0 <= i < |deltas| ==> SumSq(deltas[i]) <= g
    ensures SumSq(Buffer(dense, beta, ef, deltas)) <= b
    decreases |deltas|
  {
    if deltas != [] {
      var n := |deltas| - 1;
      RunKeeps(dense, beta, ef, deltas[..n], step, g, b);
      var before := Buffer(dense, beta, ef, deltas[..n]);
      var after := NextBuffer(dense, beta, before, deltas[n]);
      var e, a :| step(Lengths(SumSq(before), e, SumSq(deltas[n]), a, SumSq(after)));
    }
  }

  lemma SquareSign(beta: real, bb: real)
    requires bb == beta * beta
    ensures bb >= 0.0
  {
    assert bb == Square(beta);
  }

  lemma CoverKeeps(c: real, bb: real, t: real, g: real, eps: real, b: real, step: Lengths -> bool)
    requires c >= 1.0 && t > 0.0 && bb >= 0.0 && step == StepOf(c, bb, t, eps) && Covers(c, bb, t, g, eps, b)
    ensures Keeps(step, g, b)
  {
    var k, m := (c - 1.0) * (t + 1.0) * bb, (c - 1.0) * (t * (t + 1.0));
    Coefficients(c, bb, t, k, m);
    StrictProduct(c, t, c * t);
    var terms := TermsOf(c * t, k, m, c * t * eps);
    StepImpliesTerms(c, bb, t, eps, step, k, m, terms);
    TermsKeep(c * t, k, m, g, c * t * eps, b, terms);
    ImpliedKeeps(step, terms, g, b);
  }

  /**
   Over every run, of whatever length, with differences of squared length at most `g`: the buffer's squared
   length never exceeds any bound `b` that a weight `t` covers, that is
   b (C t - (C - 1)(t + 1) beta^2) >= (C - 1) t (t + 1) g + C t eps.
   */
  lemma BufferStaysBounded(dense: Vec -> Vec, c: real, beta: real, bb: real, t: real, ef: Vec, deltas: seq<Vec>,
                           g: real, eps: real, b: real)
    requires c >= 1.0 && Contractive(dense, c, |ef|, eps) && SameSize(|ef|, deltas)
    requires bb == beta * beta && t > 0.0 && Covers(c, bb, t, g, eps, b)
    requires SumSq(ef) <= b && forall i :: 0 <= i < |deltas| ==> SumSq(deltas[i]) <= g
    ensures SumSq(Buffer(dense, beta, ef, deltas)) <= b
  {
    var step := StepOf(c, bb, t, eps);
    SquareSign(beta, bb);
    BufferSteps(dense, c, beta, bb, t, |ef|, eps, step);
    CoverKeeps(c, bb, t, g, eps, b, step);
    RunKeeps(dense, beta, ef, deltas, step, g, b);
  }

  // ------------------------------------------------------------------------
  // Good weights
  // ------------------------------------------------------------------------

  lemma LoadNonNegative(c: real, t: real, g: real, eps: real)
    requires c >= 1.0 && t > 0.0 && g >= 0.0 && eps >= 0.0
    ensures Load(c, t, g, eps) >= 0.0
  {
    Coefficients(c, 0.0, t, (c - 1.0) * (t + 1.0) * 0.0, (c - 1.0) * (t * (t + 1.0)));
    MulMonotone(0.0, g, (c - 1.0) * (t * (t + 1.0)));
    MulMonotone(0.0, c, t);
    MulMonotone(0.0, eps, c * t);
  }

  lemma CoversFrom(c: real, bb: real, t: real, g: real, eps: real, b: real, least: real)
    requires least > 0.0 && Room(c, bb, t) >= least && b * least == Load(c, t, g, eps) && b >= 0.0
    ensures Covers(c, bb, t, g, eps, b)
  {
    MulMonotone(least, Room(c, bb, t), b);
  }

  function CubeBound(c: real, g: real, eps: real): real { c * (c * c - 1.0) * g + c * c * eps }

  function SquareBound(c: real, g: real, eps: real): real { 2.0 * (c - 1.0) * (2.0 * c - 1.0) * g + 2.0 * c * eps }

  lemma RoomC(c: real, bb: real)
    requires c >= 1.0 && 0.0 <= bb <= 1.0
    ensures Room(c, bb, c) >= 1.0
  {
    NonNegativeSquares(1.0, c);
    MulMonotone(0.0, c * c - 1.0, 1.0 - bb);
    assert Room(c, bb, c) == 1.0 + (c * c - 1.0) * (1.0 - bb);
  }

  lemma LoadC(c: real, g: real, eps: real)
    ensures Load(c, c, g, eps) == CubeBound(c, g, eps)
  {
    assert (c - 1.0) * (c * (c + 1.0)) == c * (c * c - 1.0);
  }

  /** With decay at most one the weight C covers C (C^2 - 1) g + C^2 eps. */
  lemma WeightC(c: real, bb: real, g: real, eps: real, b: real)
    requires c >= 1.0 && 0.0 <= bb <= 1.0 && g >= 0.0 && eps >= 0.0 && b == CubeBound(c, g, eps)
    ensures Covers(c, bb, c, g, eps, b) && b >= 0.0
  {
    RoomC(c, bb);
    LoadNonNegative(c, c, g, eps);
    LoadC(c, g, eps);
    CoversFrom(c, bb, c, g, eps, b, 1.0);
  }

  /** The weight 2 (C - 1) covers 2 (C - 1)(2 C - 1) g + 2 C eps, of order 4 C^2 g. */
  lemma WeightTwoC(c: real, bb: real, t: real, g: real, eps: real, b: real)
    requires c > 1.0 && 0.0 <= bb <= 1.0 && g >= 0.0 && eps >= 0.0 && t == 2.0 * (c - 1.0)
    requires b == SquareBound(c, g, eps)
    ensures Covers(c, bb, t, g, eps, b) && b >= 0.0
  {
    var u := (2.0 * c - 1.0) * (1.0 - bb);
    MulMonotone(0.0, 1.0 - bb, 2.0 * c - 1.0);
    RoomTwoC(c, bb, t, u);
    MulMonotone(1.0, 1.0 + u, c - 1.0);
    LoadNonNegative(c, t, g, eps);
    LoadTwoC(c, t, g, eps, b);
    CoversFrom(c, bb, t, g, eps, b, c - 1.0);
  }

  lemma RoomTwoC(c: real, bb: real, t: real, u: real)
    requires t == 2.0 * (c - 1.0) && u == (2.0 * c - 1.0) * (1.0 - bb)
    ensures Room(c, bb, t) == (c - 1.0) * (1.0 + u)
  {
  }

  lemma LoadTwoC(c: real, t: real, g: real, eps: real, b: real)
    requires c > 1.0 && t == 2.0 * (c - 1.0) && b == SquareBound(c, g, eps) && Load(c, t, g, eps) >= 0.0
    ensures b * (c - 1.0) == Load(c, t, g, eps) && b >= 0.0
  {
    assert Load(c, t, g, eps) == (c - 1.0) * b;
    Cancel(c - 1.0, 0.0, b);
  }

  // ------------------------------------------------------------------------
  // The top-k compressor
  // ------------------------------------------------------------------------

  /** What the sender takes for sent of a vector; the shape plays no part. */
  function DenseVec(c: ST.Settings, x: Vec): (d: Vec)
    requires c.chunk >= 1
    ensures |d| == |x|
  {
    ST.DenseLength(c, ST.Tensor([|x|], x));
    ST.Dense(c, ST.Tensor([|x|], x)).data
  }

  function DenseFn(c: ST.Settings): Vec -> Vec
    requires c.chunk >= 1
  {
    (x: Vec) => DenseVec(c, x)
  }

  lemma TotalSlack(c: ST.Settings, x: Vec)
    requires c.chunk >= 1
    ensures Total(c.chunk, ST.Slack, Padded(c.chunk, x)) <= Epsilon(c.chunk, |x|)
  {
    var p := Padded(c.chunk, x);
    ST.SlackBound(c, p);
    RowsCounted(c.chunk, ST.RowOf(c), p);
  }

  lemma MoreSlack(rate: real, x: Vec, d: Vec, e: real, eps: real)
    requires rate >= 1.0 && Shrinks(rate, x, d, e) && e <= eps
    ensures Shrinks(rate, x, d, eps)
  {
  }

  lemma VectorShrinks(c: ST.Settings, delta: real, rate: real, x: Vec, d: Vec)
    requires ST.Valid(c) && c.twoBit && Accurate(c.round, delta) && rate == Rate(c.chunk, delta) && d == DenseVec(c, x)
    ensures Shrinks(rate, x, d, Epsilon(c.chunk, |x|))
  {
    ST.TensorContraction(c, delta, ST.Tensor([|x|], x));
    TotalSlack(c, x);
    MoreSlack(rate, x, d, Total(c.chunk, ST.Slack, Padded(c.chunk, x)), Epsilon(c.chunk, |x|));
  }

  lemma TopKContractive(c: ST.Settings, delta: real, rate: real, n: nat, dense: Vec -> Vec)
    requires ST.Valid(c) && c.twoBit && Accurate(c.round, delta) && rate == Rate(c.chunk, delta) && dense == DenseFn(c)
    ensures Contractive(dense, rate, n, Epsilon(c.chunk, n))
  {
    forall x: Vec ensures |dense(x)| == |x| && (|x| == n ==> Shrinks(rate, x, dense(x), Epsilon(c.chunk, n))) {
      assert dense(x) == DenseVec(c, x);
      VectorShrinks(c, delta, rate, x, dense(x));
    }
  }

  /** The top-k compressor's buffer, from zero, over every run, under any bound that a weight covers. */
  lemma TopKWithin(c: ST.Settings, delta: real, beta: real, bb: real, t: real, n: nat, deltas: seq<Vec>, g: real,
                   w: real, eps: real, b: real)
    requires ST.Valid(c) && c.twoBit && Accurate(c.round, delta) && SameSize(n, deltas)
    requires w == Rate(c.chunk, delta) && eps == Epsilon(c.chunk, n)
    requires bb == beta * beta && t > 0.0 && Covers(w, bb, t, g, eps, b) && b >= 0.0
    requires forall i :: 0 <= i < |deltas| ==> SumSq(deltas[i]) <= g
    ensures KeepsLength(DenseFn(c)) && SumSq(Buffer(DenseFn(c), beta, Zeros(n), deltas)) <= b
  {
    TopKContractive(c, delta, w, n, DenseFn(c));
    SumSqZeros(n);
    BufferStaysBounded(DenseFn(c), w, beta, bb, t, Zeros(n), deltas, g, eps, b);
  }

  lemma DecaySquared(beta: real, bb: real)
    requires -1.0 <= beta <= 1.0 && bb == beta * beta
    ensures 0.0 <= bb <= 1.0
  {
    NonNegativeSquares(0.0, Abs(beta));
    NonNegativeSquares(Abs(beta), 1.0);
  }

  /**
   With decay at most one: at most C (C^2 - 1) g + C^2 eps. C is the chunk size when scales are exact, and
   `Rate(chunk, delta)` when they are rounded with relative error `delta`.
   */
  lemma TopKBufferStaysBounded(c: ST.Settings, delta: real, beta: real, w: real, n: nat, deltas: seq<Vec>, g: real,
                               eps: real)
    requires ST.Valid(c) && c.twoBit && Accurate(c.round, delta) && SameSize(n, deltas)
    requires -1.0 <= beta <= 1.0 && w == Rate(c.chunk, delta) && eps == Epsilon(c.chunk, n)
    requires g >= 0.0 && forall i :: 0 <= i < |deltas| ==> SumSq(deltas[i]) <= g
    ensures KeepsLength(DenseFn(c)) && SumSq(Buffer(DenseFn(c), beta, Zeros(n), deltas)) <= CubeBound(w, g, eps)
  {
    DecaySquared(beta, beta * beta);
    WeightC(w, beta * beta, g, eps, CubeBound(w, g, eps));
    TopKWithin(c, delta, beta, beta * beta, w, n, deltas, g, w, eps, CubeBound(w, g, eps));
  }

  lemma TopKAboveOne(c: ST.Settings, delta: real, beta: real, w: real, n: nat, deltas: seq<Vec>, g: real, eps: real)
    requires ST.Valid(c) && c.twoBit && Accurate(c.round, delta) && SameSize(n, deltas)
    requires -1.0 <= beta <= 1.0 && w == Rate(c.chunk, delta) && w > 1.0 && eps == Epsilon(c.chunk, n)
    requires g >= 0.0 && forall i :: 0 <= i < |deltas| ==> SumSq(deltas[i]) <= g
    ensures KeepsLength(DenseFn(c)) && SumSq(Buffer(DenseFn(c), beta, Zeros(n), deltas)) <= SquareBound(w, g, eps)
  {
    DecaySquared(beta, beta * beta);
    WeightTwoC(w, beta * beta, 2.0 * (w - 1.0), g, eps, SquareBound(w, g, eps));
    TopKWithin(c, delta, beta, beta * beta, 2.0 * (w - 1.0), n, deltas, g, w, eps, SquareBound(w, g, eps));
  }

  lemma BoundsAtOne(g: real, eps: real)
    requires eps >= 0.0
    ensures CubeBound(1.0, g, eps) <= SquareBound(1.0, g, eps)
  {
  }

  /** Also at most 2 (C - 1)(2 C - 1) g + 2 C eps: of the order of C^2 where the other bound is of that of C^3. */
  lemma TopKBufferWithinSquare(c: ST.Settings, delta: real, beta: real, w: real, n: nat, deltas: seq<Vec>, g: real,
                               eps: real)
    requires ST.Valid(c) && c.twoBit && Accurate(c.round, delta) && SameSize(n, deltas)
    requires -1.0 <= beta <= 1.0 && w == Rate(c.chunk, delta) && eps == Epsilon(c.chunk, n)
    requires g >= 0.0 && forall i :: 0 <= i < |deltas| ==> SumSq(deltas[i]) <= g
    ensures KeepsLength(DenseFn(c)) && SumSq(Buffer(DenseFn(c), beta, Zeros(n), deltas)) <= SquareBound(w, g, eps)
  {
    if w > 1.0 {
      TopKAboveOne(c, delta, beta, w, n, deltas, g, eps);
    } else {
      TopKBufferStaysBounded(c, delta, beta, w, n, deltas, g, eps);
      BoundsAtOne(g, eps);
    }
  }
}
