/** The fleet with the top-k compressor over a wire that keeps payloads as they are. */
module FleetCodecs {
  import opened Common
  import opened Reals
  import ST = SparseTensor
  import EF = ErrorFeedback
  import opened Fleet
  import opened FleetAgreement

  /** The parameters of the fleet as one tensor. */
  function Flat(x: Vec): ST.Tensor { ST.Tensor([|x|], x) }

  /** Payloads stored and loaded whole. */
  function StoredPayload(c: ST.Settings): Vec -> ST.SparsePayload
    requires c.chunk >= 1
  {
    (x: Vec) => ST.Encode(c, Flat(x))
  }

  function LoadedPayload(): ST.SparsePayload -> Vec { (p: ST.SparsePayload) => ST.Decode(p).data }

  ghost predicate PlainWorld(w: World<ST.SparsePayload>, c: ST.Settings)
  {
    && ST.Valid(c) && c.twoBit && w.dense == EF.DenseFn(c) && w.wire == StoredPayload(c) && w.unwire == LoadedPayload()
  }

  lemma PlainExact(w: World<ST.SparsePayload>, c: ST.Settings, x: Vec)
    requires PlainWorld(w, c)
    ensures w.unwire(w.wire(x)) == w.dense(x)
  {
    ST.TwoBitAgrees(c, Flat(x));
    assert w.unwire(w.wire(x)) == ST.Decode(ST.Encode(c, Flat(x))).data;
    assert w.dense(x) == EF.DenseVec(c, x);
  }

  /** With two-bit payloads stored whole, peer aggregation agrees at every step of every run. */
  lemma PlainAgreement(w: World<ST.SparsePayload>, c: ST.Settings, states: seq<State<ST.SparsePayload>>,
                       steps: seq<Step>, r: nat)
    requires PlainWorld(w, c) && ValidRun(w, states, steps) && r < w.ranks && r < |states[|steps|].ranks|
    ensures states[|steps|].ranks[r].theta == Ref(w, states[|steps|].ranks[r].done).theta
  {
    var end := states[|steps|].ranks[r].done;
    forall t, q | 0 <= t < end && 0 <= q < w.ranks ensures GotAt(w, Ref(w, t), t, q) == DenseAt(w, Ref(w, t), t, q) {
      PlainExact(w, c, AccAt(w, Ref(w, t), t, q));
    }
    ExactWireAgrees(w, end);
    Agreement(w, states, steps, r);
  }
}
