/**
 The leaderless fleet in synchronous mode: every rank trains, uploads its compressed difference,
 and steps its parameters by the average of what all ranks sent, which it either computes itself
 (peer aggregation) or reads from rank 0 (star aggregation).
 */
module Fleet {
  import opened Common
  import opened Reals
  import opened Mean
  import EF = ErrorFeedback

  /**
   What a run is about: the number of ranks and parameters, the initial parameters, the step sizes,
   what training makes of the parameters at a rank and step, the vector a rank takes for sent, the
   body it uploads, and the vector a peer makes of a body.
   */
  datatype World<!B> = World(
    ranks: nat, size: nat, init: Vec, alpha: real, beta: real, star: bool,
    train: (nat, nat, Vec) -> Vec, dense: Vec -> Vec, wire: Vec -> B, unwire: B -> Vec)

  ghost predicate Valid<B>(w: World<B>)
  {
    && w.ranks >= 1 && |w.init| == w.size && EF.KeepsLength(w.dense)
    && (forall r, t, v {:trigger w.train(r, t, v)} :: |w.train(r, t, v)| == |v|)
    && (forall x {:trigger w.wire(x)} :: |x| == w.size ==> |w.unwire(w.wire(x))| == w.size)
  }

  /** A rank: parameters, error feedback, completed outer steps, and what it sent in the current one. */
  datatype Rank = Rank(theta: Vec, ef: Vec, done: nat, sent: Option<Vec>, halted: bool)

  datatype State<B> = State(ranks: seq<Rank>, peers: map<(nat, nat), B>, aggregates: map<nat, Vec>)

  datatype Step = Upload(r: nat) | Aggregate(r: nat) | Collect | Fetch(r: nat) | Halt(r: nat)

  function Start<B>(w: World<B>): State<B>
  {
    State(seq(w.ranks, r => Rank(w.init, Zeros(w.size), 0, None, false)), map[], map[])
  }

  // ------------------------------------------------------------------------
  // One rank
  // ------------------------------------------------------------------------

  ghost predicate Sized<B>(w: World<B>, k: Rank)
  {
    |k.theta| == |k.ef| == w.size && (k.sent.Some? ==> |k.sent.value| == w.size)
  }

  function Delta<B>(w: World<B>, r: nat, t: nat, theta: Vec): (d: Vec)
    requires Valid(w)
    ensures |d| == |theta|
  {
    Sub(theta, w.train(r, t, theta))
  }

  /** The vector a rank compresses: its decayed buffer and the new difference. */
  function Acc<B>(w: World<B>, r: nat, k: Rank): (a: Vec)
    requires Valid(w) && Sized(w, k)
    ensures |a| == w.size
  {
    EF.Accumulated(w.beta, k.ef, Delta(w, r, k.done, k.theta))
  }

  function Uploaded<B>(w: World<B>, r: nat, k: Rank): Rank
    requires Valid(w) && Sized(w, k)
  {
    k.(ef := EF.NextBuffer(w.dense, w.beta, k.ef, Delta(w, r, k.done, k.theta)), sent := Some(w.dense(Acc(w, r, k))))
  }

  /** The outer step: the parameters from before training, moved against the average. */
  function Moved<B>(w: World<B>, theta: Vec, avg: Vec): (v: Vec)
    requires |theta| == |avg|
    ensures |v| == |theta|
  {
    Sub(theta, Scaled(w.alpha, avg))
  }

  function Completed<B>(w: World<B>, k: Rank, avg: Vec): Rank
    requires |k.theta| == |avg|
  {
    k.(theta := Moved(w, k.theta, avg), done := k.done + 1, sent := None)
  }

  /** The bodies of step `t` as a peer decodes them, with the rank's own vector in its place. */
  function Seen<B>(w: World<B>, peers: map<(nat, nat), B>, t: nat, own: nat, sent: Vec): (vs: seq<Vec>)
    requires forall q :: 0 <= q < w.ranks ==> (t, q) in peers
    ensures |vs| == w.ranks
  {
    seq(w.ranks, q requires 0 <= q < w.ranks => if q == own then sent else w.unwire(peers[(t, q)]))
  }

  // ------------------------------------------------------------------------
  // The steps
  // ------------------------------------------------------------------------

  /** All the bodies of step `t` are in the bucket. */
  predicate AllUploaded<B>(w: World<B>, s: State<B>, t: nat)
  {
    forall q :: 0 <= q < w.ranks ==> (t, q) in s.peers
  }

  predicate Waiting<B>(w: World<B>, s: State<B>, r: nat)
  {
    r < w.ranks == |s.ranks| && !s.ranks[r].halted && s.ranks[r].sent.Some?
  }

  predicate Enabled<B>(w: World<B>, s: State<B>, step: Step)
  {
    match step
    case Upload(r) => r < w.ranks == |s.ranks| && !s.ranks[r].halted && s.ranks[r].sent.None?
    case Aggregate(r) => !w.star && Waiting(w, s, r) && AllUploaded(w, s, s.ranks[r].done)
    case Collect => w.star && Waiting(w, s, 0) && AllUploaded(w, s, s.ranks[0].done)
    case Fetch(r) => w.star && r != 0 && Waiting(w, s, r) && s.ranks[r].done in s.aggregates
    case Halt(r) => Waiting(w, s, r)
  }

  ghost predicate AllSized<B>(w: World<B>, s: State<B>)
  {
    && |s.ranks| == w.ranks && (forall r :: 0 <= r < w.ranks ==> Sized(w, s.ranks[r]))
    && (forall t :: t in s.aggregates ==> |s.aggregates[t]| == w.size)
    && (forall p :: p in s.peers ==> |w.unwire(s.peers[p])| == w.size)
  }

  lemma SeenSized<B>(w: World<B>, s: State<B>, t: nat, own: nat, sent: Vec)
    requires AllSized(w, s) && AllUploaded(w, s, t) && |sent| == w.size
    ensures SameSize(w.size, Seen(w, s.peers, t, own, sent))
  {
  }

  /** The average that rank `r` makes of what it holds and what it downloads. */
  function Average<B>(w: World<B>, s: State<B>, r: nat): (avg: Vec)
    requires Valid(w) && AllSized(w, s) && Waiting(w, s, r) && AllUploaded(w, s, s.ranks[r].done)
    ensures |avg| == w.size
  {
    var k := s.ranks[r];
    SeenSized(w, s, k.done, r, k.sent.value);
    Mean.Mean(w.size, w.ranks, Seen(w, s.peers, k.done, r, k.sent.value))
  }

  function Apply<B>(w: World<B>, s: State<B>, step: Step): State<B>
    requires Valid(w) && AllSized(w, s) && Enabled(w, s, step)
  {
    match step
    case Upload(r) =>
      var k := s.ranks[r];
      s.(ranks := s.ranks[r := Uploaded(w, r, k)], peers := s.peers[(k.done, r) := w.wire(Acc(w, r, k))])
    case Aggregate(r) =>
      s.(ranks := s.ranks[r := Completed(w, s.ranks[r], Average(w, s, r))])
    case Collect =>
      var avg := Average(w, s, 0);
      s.(ranks := s.ranks[0 := Completed(w, s.ranks[0], avg)], aggregates := s.aggregates[s.ranks[0].done := avg])
    case Fetch(r) =>
      s.(ranks := s.ranks[r := Completed(w, s.ranks[r], s.aggregates[s.ranks[r].done])])
    case Halt(r) =>
      s.(ranks := s.ranks[r := s.ranks[r].(halted := true)])
  }

  lemma ApplySized<B>(w: World<B>, s: State<B>, step: Step)
    requires Valid(w) && AllSized(w, s) && Enabled(w, s, step)
    ensures AllSized(w, Apply(w, s, step))
  {
  }

  lemma StartSized<B>(w: World<B>)
    requires Valid(w)
    ensures AllSized(w, Start(w))
  {
  }

  ghost predicate Takes<B>(w: World<B>, p: State<B>, step: Step, s: State<B>)
    requires Valid(w)
  {
    AllSized(w, p) && Enabled(w, p, step) && s == Apply(w, p, step)
  }

  ghost predicate TakesAt<B>(w: World<B>, states: seq<State<B>>, steps: seq<Step>, i: nat)
    requires Valid(w) && i < |steps| && |states| == |steps| + 1
  {
    Takes(w, states[i], steps[i], states[i + 1])
  }

  /** The states of a run from the start, one step after another. */
  ghost predicate ValidRun<B>(w: World<B>, states: seq<State<B>>, steps: seq<Step>)
  {
    && Valid(w) && |states| == |steps| + 1 && states[0] == Start(w)
    && forall i :: 0 <= i < |steps| ==> TakesAt(w, states, steps, i)
  }

  lemma RunPrefix<B>(w: World<B>, states: seq<State<B>>, steps: seq<Step>)
    requires ValidRun(w, states, steps) && steps != []
    ensures ValidRun(w, states[..|steps|], steps[..|steps| - 1])
    ensures Takes(w, states[|steps| - 1], steps[|steps| - 1], states[|steps|])
  {
    assert TakesAt(w, states, steps, |steps| - 1);
    var before, taken := states[..|steps|], steps[..|steps| - 1];
    forall i | 0 <= i < |taken| ensures TakesAt(w, before, taken, i) {
      assert TakesAt(w, states, steps, i);
    }
  }

  // ------------------------------------------------------------------------
  // Lockstep
  // ------------------------------------------------------------------------

  /** The rank has uploaded its body of step `t`. */
  predicate HasUploaded(k: Rank, t: nat) { t < k.done || (t == k.done && k.sent.Some?) }

  /** The bucket holds exactly the bodies uploaded and the aggregates of rank 0's completed steps. */
  ghost predicate Placed<B>(w: World<B>, s: State<B>)
  {
    && |s.ranks| == w.ranks >= 1
    && (forall t: nat, r: nat :: (t, r) in s.peers <==> r < w.ranks && HasUploaded(s.ranks[r], t))
    && (forall t: nat :: t in s.aggregates <==> w.star && t < s.ranks[0].done)
  }

  /** A completed step was uploaded by everybody. */
  ghost predicate Barrier<B>(w: World<B>, s: State<B>)
  {
    |s.ranks| == w.ranks && forall r, q :: 0 <= r < w.ranks && 0 <= q < w.ranks ==> Close(s.ranks[r], s.ranks[q])
  }

  predicate Close(a: Rank, b: Rank) { a.done >= 1 ==> HasUploaded(b, a.done - 1) }

  lemma StepKeepsPlaced<B>(w: World<B>, s: State<B>, step: Step)
    requires Valid(w) && AllSized(w, s) && Enabled(w, s, step) && Placed(w, s)
    ensures Placed(w, Apply(w, s, step))
  {
    var s' := Apply(w, s, step);
    forall t: nat, r: nat ensures (t, r) in s'.peers <==> r < w.ranks && HasUploaded(s'.ranks[r], t) {
      assert (t, r) in s.peers <==> r < w.ranks && HasUploaded(s.ranks[r], t);
    }
  }

  lemma FinishedByAll<B>(w: World<B>, s: State<B>, t: nat, q: nat)
    requires Placed(w, s) && AllUploaded(w, s, t) && q < w.ranks
    ensures HasUploaded(s.ranks[q], t)
  {
    assert (t, q) in s.peers;
  }

  lemma StepKeepsBarrier<B>(w: World<B>, s: State<B>, step: Step)
    requires Valid(w) && AllSized(w, s) && Enabled(w, s, step) && Placed(w, s) && Barrier(w, s)
    ensures Barrier(w, Apply(w, s, step))
  {
    var s' := Apply(w, s, step);
    forall r, q | 0 <= r < w.ranks && 0 <= q < w.ranks ensures Close(s'.ranks[r], s'.ranks[q]) {
      assert Close(s.ranks[r], s.ranks[q]);
      var t := s.ranks[r].done;
      if s'.ranks[r].done == t + 1 {
        assert HasUploaded(s.ranks[q], t) by {
          if step.Fetch? {
            assert t < s.ranks[0].done && Close(s.ranks[0], s.ranks[q]);
          } else {
            FinishedByAll(w, s, t, q);
          }
        }
      }
    }
  }

  lemma {:induction false} RunInLockstep<B>(w: World<B>, states: seq<State<B>>, steps: seq<Step>)
    requires ValidRun(w, states, steps)
    ensures var s := states[|steps|]; AllSized(w, s) && Placed(w, s) && Barrier(w, s)
    decreases |steps|
  {
    if steps == [] {
      StartSized(w);
    } else {
      RunPrefix(w, states, steps);
      RunInLockstep(w, states[..|steps|], steps[..|steps| - 1]);
      var s, step := states[|steps| - 1], steps[|steps| - 1];
      ApplySized(w, s, step);
      StepKeepsPlaced(w, s, step);
      StepKeepsBarrier(w, s, step);
    }
  }

  /** Under every interleaving no two ranks' completed counts differ by more than one. */
  lemma Lockstep<B>(w: World<B>, states: seq<State<B>>, steps: seq<Step>, r: nat, q: nat)
    requires ValidRun(w, states, steps) && r < w.ranks && q < w.ranks
    ensures var s := states[|steps|]; |s.ranks| == w.ranks && s.ranks[r].done <= s.ranks[q].done + 1
  {
    RunInLockstep(w, states, steps);
    assert Close(states[|steps|].ranks[r], states[|steps|].ranks[q]);
  }

  lemma Slowest<B>(s: State<B>) returns (r: nat)
    requires |s.ranks| >= 1
    ensures r < |s.ranks| && forall q :: 0 <= q < |s.ranks| ==> s.ranks[r].done <= s.ranks[q].done
  {
    r := 0;
    for i := 0 to |s.ranks|
      invariant r < |s.ranks| && forall q :: 0 <= q < i ==> s.ranks[r].done <= s.ranks[q].done
    {
      if s.ranks[i].done < s.ranks[r].done {
        r := i;
      }
    }
  }

  /** As long as no rank has given up, some rank can go on. */
  lemma NoDeadlock<B>(w: World<B>, states: seq<State<B>>, steps: seq<Step>) returns (next: Step)
    requires ValidRun(w, states, steps)
    requires forall r :: 0 <= r < |states[|steps|].ranks| ==> !states[|steps|].ranks[r].halted
    ensures Enabled(w, states[|steps|], next) && !next.Halt?
  {
    RunInLockstep(w, states, steps);
    var s := states[|steps|];
    if r :| 0 <= r < w.ranks && s.ranks[r].sent.None? {
      next := Upload(r);
    } else {
      var r := Slowest(s);
      var t := s.ranks[r].done;
      forall q | 0 <= q < w.ranks ensures (t, q) in s.peers {
        assert HasUploaded(s.ranks[q], t);
      }
      if !w.star {
        next := Aggregate(r);
      } else if s.ranks[0].done == t {
        next := Collect;
      } else {
        next := Fetch(r);
      }
    }
  }
}
