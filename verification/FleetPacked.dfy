/**
 The fleet over the packed wire. The parameters are named tensors laid end to end; a rank compresses each
 of them, packs all the payloads into one container, and its peers unpack it tensor by tensor.
 */
module FleetPacked {
  import opened Common
  import opened Bytes
  import opened Reals
  import opened Chunks
  import Q = Quantizer
  import ST = SparseTensor
  import SW = SparseWire
  import SC = SparseCodec
  import FR = Framing
  import CT = SparseContainer
  import EF = ErrorFeedback
  import opened Fleet
  import opened FleetAgreement

  /** One named tensor of the parameters. */
  datatype Slot = Slot(name: FR.Name, shape: seq<nat>, size: nat)

  function Size(slots: seq<Slot>): nat { if slots == [] then 0 else slots[0].size + Size(slots[1..]) }

  function Tensor(slot: Slot, x: Vec): ST.Tensor
    requires |x| >= slot.size
  {
    ST.Tensor(slot.shape, x[..slot.size])
  }

  function Sent(c: ST.Settings, f: SW.Float32, slot: Slot, x: Vec): SC.Payload
    requires c.chunk >= 1 && |x| >= slot.size
  {
    SW.ToWire(f, c.k, ST.Encode(c, Tensor(slot, x)))
  }

  // The three maps of the fleet, tensor by tensor.

  function Entries(c: ST.Settings, f: SW.Float32, slots: seq<Slot>, x: Vec): (es: seq<FR.Entry<SC.Payload>>)
    requires c.chunk >= 1 && |x| == Size(slots)
    ensures |es| == |slots| && forall i :: 0 <= i < |es| ==> es[i].name == slots[i].name
  {
    if slots == [] then []
    else [FR.Entry(slots[0].name, Sent(c, f, slots[0], x))] + Entries(c, f, slots[1..], x[slots[0].size..])
  }

  function DenseAll(c: ST.Settings, slots: seq<Slot>, x: Vec): (d: Vec)
    requires c.chunk >= 1 && |x| == Size(slots)
    ensures |d| == |x|
  {
    if slots == [] then []
    else
      ST.DenseLength(c, Tensor(slots[0], x));
      ST.Dense(c, Tensor(slots[0], x)).data + DenseAll(c, slots[1..], x[slots[0].size..])
  }

  /** A copy of the expected size, or zeros. */
  function Sized(n: nat, v: Vec): (r: Vec)
    ensures |r| == n
  {
    if |v| == n then v else Zeros(n)
  }

  function Assembled(f: SW.Float32, slots: seq<Slot>, got: map<FR.Name, SC.Payload>): (v: Vec)
    ensures |v| == Size(slots)
  {
    if slots == [] then []
    else
      Sized(slots[0].size, if slots[0].name in got then SW.PeerCopy(f, got[slots[0].name]).data else []) +
      Assembled(f, slots[1..], got)
  }

  function DenseFn(c: ST.Settings, slots: seq<Slot>): Vec -> Vec
    requires c.chunk >= 1
  {
    (x: Vec) => if |x| == Size(slots) then DenseAll(c, slots, x) else x
  }

  function WireFn(c: ST.Settings, f: SW.Float32, slots: seq<Slot>): Vec -> Result<seq<byte>>
    requires c.chunk >= 1
  {
    (x: Vec) =>
      if |x| == Size(slots) then FR.Encode(CT.Wire(), Entries(c, f, slots, x)) else Err("not the parameters")
  }

  /** What a peer makes of a body; zeros stand for a body that it cannot decode. */
  function PeerVector(f: SW.Float32, slots: seq<Slot>, body: Result<seq<byte>>): (v: Vec)
    ensures |v| == Size(slots)
  {
    if body.Err? then Zeros(Size(slots))
    else
      var got := FR.Decode(CT.Wire(), body.value);
      if got.Err? then Zeros(Size(slots)) else Assembled(f, slots, got.value)
  }

  function UnwireFn(f: SW.Float32, slots: seq<Slot>): Result<seq<byte>> -> Vec
  {
    (b: Result<seq<byte>>) => PeerVector(f, slots, b)
  }

  ghost predicate PackedWorld(w: World<Result<seq<byte>>>, c: ST.Settings, f: SW.Float32, slots: seq<Slot>)
  {
    && ST.Valid(c) && c.twoBit && SW.Carries(f, c.round)
    && w.size == Size(slots) && IsWord(|slots|)
    && (forall i, j :: 0 <= i < j < |slots| ==> slots[i].name != slots[j].name)
    && w.dense == DenseFn(c, slots) && w.wire == WireFn(c, f, slots) && w.unwire == UnwireFn(f, slots)
  }

  predicate BodyFits(p: SC.Payload) { SC.EncodeOne(p).Ok? ==> IsWord(|SC.EncodeOne(p).value|) }

  /** The format can hold the payload of every tensor. */
  predicate Packable(c: ST.Settings, f: SW.Float32, slots: seq<Slot>, x: Vec)
    requires c.chunk >= 1 && |x| == Size(slots)
  {
    slots == [] ||
    (&& slots[0].size > 0 && SW.Fits(c.k, ST.Encode(c, Tensor(slots[0], x))) && IsWord(|slots[0].name|)
     && BodyFits(Sent(c, f, slots[0], x))
     && Packable(c, f, slots[1..], x[slots[0].size..]))
  }

  /** All values sent of one of the tensors look two-bit, and one of its entries is sent as zero. */
  predicate HidesZero(c: ST.Settings, slots: seq<Slot>, x: Vec)
    requires c.chunk >= 1 && |x| == Size(slots)
  {
    slots != [] && (SW.HidesEntry(c, Tensor(slots[0], x)) || HidesZero(c, slots[1..], x[slots[0].size..]))
  }

  // ------------------------------------------------------------------------
  // What arrives
  // ------------------------------------------------------------------------

  lemma PayloadSendable(c: ST.Settings, f: SW.Float32, name: FR.Name, t: ST.Tensor, p: SC.Payload)
    requires ST.Valid(c) && c.twoBit && SW.Carries(f, c.round) && |t.data| > 0 && SW.Fits(c.k, ST.Encode(c, t))
    requires p == SW.ToWire(f, c.k, ST.Encode(c, t)) && IsWord(|name|)
    requires BodyFits(p)
    ensures CT.Sendable(FR.Entry(name, p))
  {
    SW.CopyAgreesIff(c, f, t);
    SC.WellFormedEncodes(p);
  }

  lemma {:induction false} AllSendable(c: ST.Settings, f: SW.Float32, slots: seq<Slot>, x: Vec, i: nat)
    requires ST.Valid(c) && c.twoBit && SW.Carries(f, c.round) && |x| == Size(slots) && Packable(c, f, slots, x)
    requires i < |slots|
    ensures CT.Sendable(Entries(c, f, slots, x)[i])
    decreases |slots|
  {
    if i == 0 {
      PayloadSendable(c, f, slots[0].name, Tensor(slots[0], x), Sent(c, f, slots[0], x));
    } else {
      AllSendable(c, f, slots[1..], x[slots[0].size..], i - 1);
      assert Entries(c, f, slots, x)[i] == Entries(c, f, slots[1..], x[slots[0].size..])[i - 1];
    }
  }

  /** The payloads of all slots have arrived as the packed format brings them. */
  ghost predicate Arrived(es: seq<FR.Entry<SC.Payload>>, got: map<FR.Name, SC.Payload>)
  {
    forall i :: 0 <= i < |es| ==> es[i].name in got && got[es[i].name] == SC.Received(es[i].payload)
  }

  /** One tensor of the copy. */
  lemma PieceAgreesIff(c: ST.Settings, f: SW.Float32, t: ST.Tensor, copy: ST.Tensor)
    requires ST.Valid(c) && c.twoBit && SW.Carries(f, c.round) && |t.data| > 0 && SW.Fits(c.k, ST.Encode(c, t))
    requires copy == SW.PeerCopy(f, SC.Received(SW.ToWire(f, c.k, ST.Encode(c, t))))
    ensures |copy.data| == |t.data| == |ST.Dense(c, t).data|
    ensures copy.data == ST.Dense(c, t).data <==> !SW.HidesEntry(c, t)
  {
    SW.CopyShape(c, f, t);
    SW.CopyAgreesIff(c, f, t);
    ST.DenseLength(c, t);
  }

  lemma {:induction false} AssembledAgreesIff(c: ST.Settings, f: SW.Float32, slots: seq<Slot>, x: Vec,
                                              got: map<FR.Name, SC.Payload>)
    requires ST.Valid(c) && c.twoBit && SW.Carries(f, c.round) && |x| == Size(slots) && Packable(c, f, slots, x)
    requires Arrived(Entries(c, f, slots, x), got)
    ensures Assembled(f, slots, got) == DenseAll(c, slots, x) <==> !HidesZero(c, slots, x)
    decreases |slots|
  {
    if slots != [] {
      var slot, rest := slots[0], x[slots[0].size..];
      var t := Tensor(slot, x);
      var es := Entries(c, f, slots, x);
      assert es[0].name in got && es[1..] == Entries(c, f, slots[1..], rest);
      assert Arrived(es[1..], got);
      AssembledAgreesIff(c, f, slots[1..], rest, got);
      var copy := SW.PeerCopy(f, got[slot.name]);
      PieceAgreesIff(c, f, t, copy);
      SplitEqual(copy.data, Assembled(f, slots[1..], got), ST.Dense(c, t).data, DenseAll(c, slots[1..], rest));
    }
  }

  /** A peer gets exactly what the sender takes for sent, unless a tensor hides a zero. */
  lemma PackedExactIff(w: World<Result<seq<byte>>>, c: ST.Settings, f: SW.Float32, slots: seq<Slot>, x: Vec)
    requires PackedWorld(w, c, f, slots) && |x| == w.size && Packable(c, f, slots, x)
    ensures w.wire(x).Ok? && (w.unwire(w.wire(x)) == w.dense(x) <==> !HidesZero(c, slots, x))
  {
    var es := Entries(c, f, slots, x);
    forall i | 0 <= i < |es| ensures CT.Sendable(es[i]) {
      AllSendable(c, f, slots, x, i);
    }
    var got := ContainerArrives(es);
    AssembledAgreesIff(c, f, slots, x, got);
    var body := FR.Encode(CT.Wire(), es);
    assert w.wire(x) == body && w.unwire(body) == PeerVector(f, slots, body) == Assembled(f, slots, got);
    assert w.dense(x) == DenseAll(c, slots, x);
  }

  lemma ContainerArrives(es: seq<FR.Entry<SC.Payload>>) returns (got: map<FR.Name, SC.Payload>)
    requires CT.AllSendable(es) && FR.DistinctNames(es)
    ensures FR.Encode(CT.Wire(), es).Ok? && FR.Decode(CT.Wire(), FR.Encode(CT.Wire(), es).value) == Ok(got)
    ensures Arrived(es, got)
  {
    CT.AllSendableEncodable(es);
    FR.ContainerRoundTrip(CT.Wire(), SC.Received, es, []);
    assert FR.Encode(CT.Wire(), es).value + [] == FR.Encode(CT.Wire(), es).value;
    got := FR.Collect(SC.Received, map[], es);
    forall i | 0 <= i < |es| ensures es[i].name in got && got[es[i].name] == SC.Received(es[i].payload) {
      FR.CollectHasAll(SC.Received, map[], es, i);
    }
  }

  /** Over the packed wire, peer aggregation agrees as long as no rank hides a zero. */
  lemma PackedAgreement(w: World<Result<seq<byte>>>, c: ST.Settings, f: SW.Float32, slots: seq<Slot>,
                        states: seq<State<Result<seq<byte>>>>, steps: seq<Step>, r: nat)
    requires PackedWorld(w, c, f, slots) && ValidRun(w, states, steps) && r < w.ranks && r < |states[|steps|].ranks|
    requires forall t, q :: 0 <= t < states[|steps|].ranks[r].done && 0 <= q < w.ranks ==>
      Packable(c, f, slots, AccAt(w, Ref(w, t), t, q)) && !HidesZero(c, slots, AccAt(w, Ref(w, t), t, q))
    ensures states[|steps|].ranks[r].theta == Ref(w, states[|steps|].ranks[r].done).theta
  {
    var end := states[|steps|].ranks[r].done;
    forall t, q | 0 <= t < end && 0 <= q < w.ranks ensures GotAt(w, Ref(w, t), t, q) == DenseAt(w, Ref(w, t), t, q) {
      PackedExactIff(w, c, f, slots, AccAt(w, Ref(w, t), t, q));
    }
    ExactWireAgrees(w, end);
    Agreement(w, states, steps, r);
  }

  // ------------------------------------------------------------------------
  // A run in which the packed wire separates two ranks
  // ------------------------------------------------------------------------

  /** Both entries of chunks of two are kept; scales are stored by `round`. */
  function Pairs(round: Rounding): ST.Settings
  {
    ST.Settings(2, 2, true, (v: Vec) => [0, 1], (x: real) => 0, round)
  }

  lemma RowsOfOneChunk(c: ST.Settings, t: ST.Tensor)
    requires c.chunk == |t.data| == 2
    ensures ST.Encode(c, t).rows == [ST.Row(c, t.data)] && ST.Encode(c, t).pad == 0
  {
    var g, x := ST.RowOf(c), t.data;
    assert Padded(2, x) == x;
    assert x[..2] == x && x[2..] == [] && MapRows(2, g, x[2..]) == [];
    assert MapRows(2, g, x) == [g(x)] + MapRows(2, g, x[2..]);
    assert g(x) == ST.Row(c, x);
  }

  /** The row of a chunk (3, n) with n 0 or 3: its scale is 1, and 3 and n are sent. */
  lemma RowOfThree(round: Rounding, x: Vec, n: int)
    requires round(1.0) == 1.0 && x == [3.0, n as real] && (n == 0 || n == 3)
    ensures ST.Row(Pairs(round), x) == Q.Packed([0, 1], [3, n], 1.0)
  {
    var sel := Q.Selected(x, [0, 1]);
    assert sel == x;
    assert x[1..] == [n as real] && Q.AMax(x[1..]) == n as real && Q.AMax(x) == 3.0;
    assert Q.Scale(round, sel) == 1.0;
    Q.WholeEntryExact(3.0, 1.0, 3);
    Q.WholeEntryExact(n as real, 1.0, n);
  }

  lemma HiddenInPair(round: Rounding, x: Vec, n: int)
    requires round(1.0) == 1.0 && x == [3.0, n as real] && (n == 0 || n == 3)
    ensures SW.HidesEntry(Pairs(round), ST.Tensor([2], x)) <==> n == 0
  {
    var c, t := Pairs(round), ST.Tensor([2], x);
    RowsOfOneChunk(c, t);
    RowOfThree(round, x, n);
    var row := ST.Row(c, x);
    assert SW.FlatQ([row]) == row.q;
    assert row.q[1] == n && row.idx[1] == 1;
    assert SW.ZeroIn(row, 2) <==> n == 0;
    assert !SW.ZeroBelow(2, [], 0);
  }

  function OneSlot(): seq<Slot> { [Slot([], [2], 2)] }

  lemma OneSlotSize()
    ensures Size(OneSlot()) == 2
  {
    assert Size(OneSlot()[1..]) == 0;
  }

  lemma PairsValid(round: Rounding)
    ensures ST.Valid(Pairs(round)) && Pairs(round).chunk == 2
  {
    var c := Pairs(round);
    forall v: Vec | |v| == 2 ensures Q.IsTopK(v, c.topk(v), 2) {
      assert c.topk(v) == [0, 1];
    }
  }

  lemma PairFits(round: Rounding, f: SW.Float32, x: Vec)
    requires |x| == 2 && SW.Carries(f, round)
    ensures SW.Fits(2, ST.Encode(Pairs(round), ST.Tensor([2], x)))
    ensures var body := SC.EncodeOne(SW.ToWire(f, 2, ST.Encode(Pairs(round), ST.Tensor([2], x))));
            body.Ok? && IsWord(|body.value|)
  {
    var c, t := Pairs(round), ST.Tensor([2], x);
    PairsValid(round);
    RowsOfOneChunk(c, t);
    var p := SW.ToWire(f, 2, ST.Encode(c, t));
    SW.CopyAgreesIff(c, f, t);
    SC.EncodedLaidOut(p, []);
    BodyOfOnePair(SC.HeadOf(p));
  }

  lemma BodyOfOnePair(h: SC.Head)
    requires h.nChunks == 1 && h.k == 2 && h.dim == 1
    ensures IsWord(SC.End(h))
  {
  }

  /** With a single tensor of two entries the maps of the fleet are those of the tensor. */
  lemma OneSlotPacks(round: Rounding, f: SW.Float32, x: Vec, n: int)
    requires round(1.0) == 1.0 && SW.Carries(f, round) && x == [3.0, n as real] && (n == 0 || n == 3)
    ensures Size(OneSlot()) == 2
    ensures Packable(Pairs(round), f, OneSlot(), x) && (HidesZero(Pairs(round), OneSlot(), x) <==> n == 0)
  {
    var c, slots := Pairs(round), OneSlot();
    OneSlotSize();
    assert slots[1..] == [] && x[2..] == [] && x[..2] == x;
    PairFits(round, f, x);
    HiddenInPair(round, x, n);
    assert Tensor(slots[0], x) == ST.Tensor([2], x);
    assert Packable(c, f, [], []) && !HidesZero(c, [], []);
  }

  /** Training that takes (3, 0) off the parameters at rank 0 and (3, 3) elsewhere. */
  function Trained(r: nat, v: Vec): (u: Vec)
    ensures |u| == |v|
  {
    if |v| == 2 then Sub(v, if r == 0 then [3.0, 0.0] else [3.0, 3.0]) else v
  }

  /** Two ranks with two parameters, which start at zero and train as above. */
  ghost predicate TwoRanks<B>(w: World<B>)
  {
    && w.ranks == 2 && w.size == 2 && w.init == [0.0, 0.0] && w.alpha == 1.0 && w.beta == 0.0 && !w.star
    && forall r, t, v {:trigger w.train(r, t, v)} :: w.train(r, t, v) == Trained(r, v)
  }

  lemma DenseKeepsLength(c: ST.Settings, slots: seq<Slot>, dense: Vec -> Vec)
    requires c.chunk >= 1 && dense == DenseFn(c, slots)
    ensures EF.KeepsLength(dense)
  {
    forall x: Vec ensures |dense(x)| == |x| {
      assert dense(x) == if |x| == Size(slots) then DenseAll(c, slots, x) else x;
    }
  }

  lemma UnwireSized(f: SW.Float32, slots: seq<Slot>, wire: Vec -> Result<seq<byte>>, unwire: Result<seq<byte>> -> Vec)
    requires unwire == UnwireFn(f, slots)
    ensures forall x {:trigger wire(x)} :: |unwire(wire(x))| == Size(slots)
  {
    forall x: Vec ensures |unwire(wire(x))| == Size(slots) {
      assert unwire(wire(x)) == PeerVector(f, slots, wire(x));
    }
  }

  lemma TwoRanksValid(c: ST.Settings, f: SW.Float32, slots: seq<Slot>, w: World<Result<seq<byte>>>)
    requires TwoRanks(w) && c.chunk >= 1 && Size(slots) == 2
    requires w.dense == DenseFn(c, slots) && w.wire == WireFn(c, f, slots) && w.unwire == UnwireFn(f, slots)
    ensures Valid(w)
  {
    DenseKeepsLength(c, slots, w.dense);
    UnwireSized(f, slots, w.wire, w.unwire);
    assert forall r, t, v {:trigger w.train(r, t, v)} :: |w.train(r, t, v)| == |v|;
  }

  lemma MakeWorld(dense: Vec -> Vec, wire: Vec -> Result<seq<byte>>, unwire: Result<seq<byte>> -> Vec)
    returns (w: World<Result<seq<byte>>>)
    ensures TwoRanks(w) && w.dense == dense && w.wire == wire && w.unwire == unwire
  {
    w := World(2, 2, [0.0, 0.0], 1.0, 0.0, false, (r: nat, t: nat, v: Vec) => Trained(r, v), dense, wire, unwire);
  }

  lemma PackedTwoRanks(c: ST.Settings, f: SW.Float32, slots: seq<Slot>) returns (w: World<Result<seq<byte>>>)
    requires ST.Valid(c) && c.twoBit && SW.Carries(f, c.round) && |slots| == 1 && Size(slots) == 2
    ensures TwoRanks(w) && Valid(w) && PackedWorld(w, c, f, slots)
  {
    w := MakeWorld(DenseFn(c, slots), WireFn(c, f, slots), UnwireFn(f, slots));
    TwoRanksValid(c, f, slots, w);
  }

  function FirstOf(r: nat): Vec { if r == 0 then [3.0, 0.0] else [3.0, 3.0] }

  lemma FirstVector<B>(w: World<B>, r: nat)
    requires Valid(w) && TwoRanks(w) && r < 2
    ensures AccAt(w, Ref(w, 0), 0, r) == FirstOf(r)
  {
    var g := Ref(w, 0);
    FirstDelta(w, r, g.theta);
    FirstSum(w.beta, g.efs[r], FirstOf(r));
  }

  lemma FirstDelta<B>(w: World<B>, r: nat, theta: Vec)
    requires Valid(w) && TwoRanks(w) && theta == [0.0, 0.0]
    ensures Delta(w, r, 0, theta) == FirstOf(r)
  {
    assert w.train(r, 0, theta) == Trained(r, theta);
    var d := Delta(w, r, 0, theta);
    assert d[0] == FirstOf(r)[0] && d[1] == FirstOf(r)[1];
  }

  lemma FirstSum(beta: real, ef: Vec, d: Vec)
    requires beta == 0.0 && |ef| == |d|
    ensures EF.Accumulated(beta, ef, d) == d
  {
  }

  lemma SubZero(a: Vec, b: Vec)
    requires |a| == |b|
    ensures Sub(a, b) == Zeros(|a|) <==> a == b
  {
    if Sub(a, b) == Zeros(|a|) {
      forall i | 0 <= i < |a| ensures a[i] == b[i] {
        assert Sub(a, b)[i] == 0.0;
      }
    }
  }

  /**
   Two ranks that start from the same parameters and part in their first step, because what one of
   them sends hides a zero and what the other sends does not. Nothing is special about the
   numbers: single precision holds 1 exactly.
   */
  lemma PackedWireDiverges(round: Rounding, f: SW.Float32)
    returns (w: World<Result<seq<byte>>>, states: seq<State<Result<seq<byte>>>>, steps: seq<Step>)
    requires round(1.0) == 1.0 && SW.Carries(f, round)
    ensures PackedWorld(w, Pairs(round), f, OneSlot()) && ValidRun(w, states, steps) && |states[|steps|].ranks| == 2
    ensures states[|steps|].ranks[0].theta != states[|steps|].ranks[1].theta
  {
    OneSlotSize();
    PairsValid(round);
    w := PackedTwoRanks(Pairs(round), f, OneSlot());
    FirstErrorsDiffer(round, f, w);
    states, steps := TwoRanksPart(w);
  }

  lemma FirstErrorsDiffer(round: Rounding, f: SW.Float32, w: World<Result<seq<byte>>>)
    requires round(1.0) == 1.0 && SW.Carries(f, round)
    requires TwoRanks(w) && Valid(w) && PackedWorld(w, Pairs(round), f, OneSlot())
    ensures WireError(w, Ref(w, 0), 0, 0) != WireError(w, Ref(w, 0), 0, 1)
  {
    FirstVector(w, 0);
    FirstVector(w, 1);
    FirstError(round, f, w, 0, FirstOf(0), 0);
    FirstError(round, f, w, 1, FirstOf(1), 3);
  }

  lemma FirstError(round: Rounding, f: SW.Float32, w: World<Result<seq<byte>>>, r: nat, x: Vec, n: int)
    requires round(1.0) == 1.0 && SW.Carries(f, round) && r < 2 == w.ranks
    requires Valid(w) && PackedWorld(w, Pairs(round), f, OneSlot()) && AccAt(w, Ref(w, 0), 0, r) == x
    requires x == [3.0, n as real] && (n == 0 || n == 3)
    ensures WireError(w, Ref(w, 0), 0, r) == Zeros(2) <==> n != 0
  {
    OneSlotPacks(round, f, x, n);
    PackedExactIff(w, Pairs(round), f, OneSlot(), x);
    SubZero(GotAt(w, Ref(w, 0), 0, r), DenseAt(w, Ref(w, 0), 0, r));
  }
}
