/**
 Rounds that wait for ever: a block that can never have enough deltas, and a block that waits for a
 timeout which a restart of the orchestrator has switched off.
 */
module SyncStalls {
  import opened Common
  import opened PinTable
  import opened Quorum
  import opened SyncRounds

  // ------------------------------------------------------------------------
  // Runs, state by state
  // ------------------------------------------------------------------------

  lemma RunSafeAt<V>(w: World<V>, states: seq<State<V>>, steps: seq<Step<V>>, j: nat)
    requires ValidRun(w, states, steps) && j < |states|
    ensures Safe(w, states[j])
  {
    var before, taken := states[..j + 1], steps[..j];
    forall i | 0 <= i < |taken| ensures StepAt(w, before, taken, i) {
      assert StepAt(w, states, steps, i);
    }
    RunSafe(w, before, taken);
  }

  /** The step from `s` to `s'` emits the round. */
  ghost predicate Emits<V>(s: State<V>, s': State<V>, round: nat) { round !in s.emitted && round in s'.emitted }

  // ------------------------------------------------------------------------
  // Which deltas a round can have
  // ------------------------------------------------------------------------

  /** What the inner steps of a block were told to make. */
  function Planned(p: Params, round: nat, ub: nat, workers: seq<WorkerId>, pin: seq<WorkerId>): set<Artifact>
    requires workers != []
  {
    BlockDeltas(round, ub, DeltaKeys(Servers(pin, workers), p.replicas, p.mbs))
  }

  /** Of the block of the round, the inner steps are at most those planned. */
  ghost predicate InnerWithin(inner: set<Artifact>, round: nat, ub: nat, plan: set<Artifact>)
  {
    forall a :: a in inner && a.Delta? && a.round == round && a.ub == ub ==> a in plan
  }

  /** Inner steps belong to emitted rounds, and the deltas stored and running come from inner steps. */
  ghost predicate DeltasFromInner<V>(s: State<V>)
  {
    && (forall a :: a in s.inner ==> a.round in s.emitted)
    && (forall a :: (a in s.store || a in s.running) && a.Delta? ==> a in s.inner)
  }

  lemma {:induction false} InnerPlanned(p: Params, round: nat, workers: seq<WorkerId>, pin: seq<seq<WorkerId>>,
                                        n: nat, ub: nat)
    requires n <= |pin| && workers != [] && ub < |pin|
    ensures forall a :: a in InnerUpTo(p, round, workers, pin, n) ==> a.round == round
    ensures InnerWithin(InnerUpTo(p, round, workers, pin, n), round, ub, Planned(p, round, ub, workers, pin[ub]))
    decreases n
  {
    if n > 0 {
      InnerPlanned(p, round, workers, pin, n - 1, ub);
    }
  }

  /** A tick emits at most the round of the cursor and the next, each with the deltas planned by that tick. */
  lemma EmittedPlan<V>(w: World<V>, s: State<V>, round: nat, now: real, workers: seq<WorkerId>,
                       pin: seq<seq<WorkerId>>, r: nat, ub: nat)
    requires |pin| == w.blocks && workers != [] && ub < w.blocks && DeltasFromInner(s) && round !in s.emitted
    ensures var s' := EmitRound(w, s, round, now, workers, pin);
            && DeltasFromInner(s')
            && (r == round ==> InnerWithin(s'.inner, r, ub, Planned(w.params, r, ub, workers, pin[ub])))
            && (r in s.emitted ==>
                  forall plan :: InnerWithin(s.inner, r, ub, plan) ==> InnerWithin(s'.inner, r, ub, plan))
  {
    InnerPlanned(w.params, round, workers, pin, w.blocks, ub);
  }

  /** What a tick does to the inner steps: nothing, or one or two emissions of rounds not emitted before. */
  ghost predicate InnerStep<V>(w: World<V>, s: State<V>, s': State<V>, workers: seq<WorkerId>,
                               pin: seq<seq<WorkerId>>, r: nat, ub: nat)
    requires ub < |pin|
  {
    && s.emitted.Keys <= s'.emitted.Keys
    && (Emits(s, s', r) ==> workers != [] && InnerWithin(s'.inner, r, ub, Planned(w.params, r, ub, workers, pin[ub])))
    && (r in s.emitted ==> forall plan :: InnerWithin(s.inner, r, ub, plan) ==> InnerWithin(s'.inner, r, ub, plan))
  }

  lemma TickInnerStep<V>(w: World<V>, s: State<V>, now: real, graceOver: bool, workers: seq<WorkerId>,
                         pin: seq<seq<WorkerId>>, r: nat, ub: nat)
    requires |pin| == w.blocks && ub < w.blocks && DeltasFromInner(s)
    ensures DeltasFromInner(Tick(w, s, now, graceOver, workers, pin))
    ensures InnerStep(w, s, Tick(w, s, now, graceOver, workers, pin), workers, pin, r, ub)
  {
    if AtEnd(w, s.cursor) || workers == [] || (s.cursor !in s.emitted && s.cursor == 0 && !graceOver) {
    } else {
      var s1 := s;
      if s.cursor !in s.emitted {
        s1 := EmitRound(w, s, s.cursor, now, workers, pin);
        EmittedPlan(w, s, s.cursor, now, workers, pin, r, ub);
      }
      var s2 := Reduces(w, s1, s1.cursor, now);
      assert DeltasFromInner(s2) && s2.inner == s1.inner && s2.emitted == s1.emitted;
      AdvanceInnerStep(w, s2, now, workers, pin, r, ub);
    }
  }

  lemma AdvanceInnerStep<V>(w: World<V>, s: State<V>, now: real, workers: seq<WorkerId>, pin: seq<seq<WorkerId>>,
                            r: nat, ub: nat)
    requires |pin| == w.blocks && workers != [] && ub < w.blocks && DeltasFromInner(s)
    ensures var s' := Advance(w, s, now, workers, pin); DeltasFromInner(s') && InnerStep(w, s, s', workers, pin, r, ub)
  {
    if Complete(w, s, s.cursor) {
      var s1 := s.(cursor := s.cursor + 1, completed := s.completed + [s.cursor]);
      if !AtEnd(w, s1.cursor) && s1.cursor !in s1.emitted && CoverageOk(pin, w.params.replicas) {
        EmittedPlan(w, s1, s1.cursor, now, workers, pin, r, ub);
      }
    }
  }

  lemma StepInner<V>(w: World<V>, s: State<V>, step: Step<V>, r: nat, ub: nat)
    requires Enabled(w, s, step) && ub < w.blocks && DeltasFromInner(s)
    ensures var s' := Apply(w, s, step);
            && DeltasFromInner(s') && s.emitted.Keys <= s'.emitted.Keys
            && (r in s.emitted ==>
                  forall plan :: InnerWithin(s.inner, r, ub, plan) ==> InnerWithin(s'.inner, r, ub, plan))
            && (Emits(s, s', r) ==>
                  (&& step.Ticks? && step.workers != []
                   && InnerWithin(s'.inner, r, ub, Planned(w.params, r, ub, step.workers, step.pin[ub]))))
  {
    if step.Ticks? {
      TickInnerStep(w, s, step.now, step.graceOver, step.workers, step.pin, r, ub);
    }
  }

  lemma {:induction false} RunDeltas<V>(w: World<V>, states: seq<State<V>>, steps: seq<Step<V>>, j: nat)
    requires ValidRun(w, states, steps) && j < |states| && w.blocks >= 1
    ensures DeltasFromInner(states[j])
  {
    if j > 0 {
      RunDeltas(w, states, steps, j - 1);
      assert StepAt(w, states, steps, j - 1);
      StepInner(w, states[j - 1], steps[j - 1], 0, 0);
    }
  }

  /** Step `i` is the tick that emits round `r`, with the servers `servers` for block `ub`. */
  ghost predicate EmittedAt<V>(w: World<V>, states: seq<State<V>>, steps: seq<Step<V>>, i: nat, r: nat, ub: nat,
                               servers: seq<WorkerId>)
  {
    && ValidRun(w, states, steps) && i < |steps| && ub < w.blocks && Emits(states[i], states[i + 1], r)
    && steps[i].Ticks? && |steps[i].pin| == w.blocks && steps[i].workers != []
    && servers == Servers(steps[i].pin[ub], steps[i].workers)
  }

  function PlanOf(p: Params, r: nat, ub: nat, servers: seq<WorkerId>): set<Artifact>
    requires servers != []
  {
    BlockDeltas(r, ub, DeltaKeys(servers, p.replicas, p.mbs))
  }

  /** From its emission on, a round has at most the deltas that were planned for it. */
  lemma {:induction false} PlanHolds<V>(w: World<V>, states: seq<State<V>>, steps: seq<Step<V>>, i: nat, j: nat,
                                        r: nat, ub: nat, servers: seq<WorkerId>)
    requires EmittedAt(w, states, steps, i, r, ub, servers) && i < j < |states|
    ensures servers != [] && r in states[j].emitted &&
            InnerWithin(states[j].inner, r, ub, PlanOf(w.params, r, ub, servers))
    decreases j
  {
    RunDeltas(w, states, steps, j - 1);
    assert StepAt(w, states, steps, j - 1);
    StepInner(w, states[j - 1], steps[j - 1], r, ub);
    if j > i + 1 {
      PlanHolds(w, states, steps, i, j - 1, r, ub, servers);
    }
  }

  lemma {:induction false} BlockDeltasCount(round: nat, ub: nat, keys: set<Key>)
    ensures |BlockDeltas(round, ub, keys)| == |keys|
  {
    if keys != {} {
      var k :| k in keys;
      var rest := keys - {k};
      BlockDeltasCount(round, ub, rest);
      assert BlockDeltas(round, ub, keys) == BlockDeltas(round, ub, rest) + {Delta(round, ub, k.0, k.1)};
    }
  }

  /** However long the run, the block has at most M * min(R, P) deltas. */
  lemma DeltasBounded<V>(w: World<V>, states: seq<State<V>>, steps: seq<Step<V>>, i: nat, j: nat, r: nat, ub: nat,
                         servers: seq<WorkerId>)
    requires EmittedAt(w, states, steps, i, r, ub, servers) && i < j < |states| && Distinct(servers)
    ensures |DeltasOf(states[j].store, r, ub)| <= w.params.mbs * Min(w.params.replicas, |servers|)
  {
    PlanHolds(w, states, steps, i, j, r, ub, servers);
    RunDeltas(w, states, steps, j);
    var keys := DeltaKeys(servers, w.params.replicas, w.params.mbs);
    SubsetSize(DeltasOf(states[j].store, r, ub), PlanOf(w.params, r, ub, servers));
    BlockDeltasCount(r, ub, keys);
    DeltasCounted(servers, w.params.replicas, w.params.mbs);
  }

  // ------------------------------------------------------------------------
  // A block without servers enough
  // ------------------------------------------------------------------------

  /** A marker stands for a reduce over deltas that are there and met the quorum. */
  lemma MarkerMeansQuorum<V>(w: World<V>, s: State<V>, r: nat, ub: nat) returns (e: Emission)
    requires Safe(w, s) && (r, ub) in s.book.markers
    ensures QuorumMet(w.params, |e.manifest.inputs|, e.elapsed) && |e.manifest.inputs| <= |DeltasOf(s.store, r, ub)|
  {
    assert Logged(s.book, (r, ub));
    var i :| 0 <= i < |s.book.log| && ForBlock(s.book.log[i], (r, ub));
    e := s.book.log[i];
    assert EmissionOk(w.params, s.store, s.book, e);
    SubsetSize(e.manifest.inputs, DeltasOf(s.store, r, ub));
  }

  /** Stored, or being made. */
  predicate OnHand<V>(s: State<V>, a: Artifact) { a in s.store || a in s.running }

  /** The next weights of a block are made after its marker. */
  lemma WeightsMeanMarker<V>(w: World<V>, s: State<V>, r: nat, ub: nat)
    requires Safe(w, s) && OnHand(s, Weights(r + 1, ub))
    ensures (r, ub) in s.book.markers
  {
    var next := Weights(r + 1, ub);
    assert ValueOk(w, s.store, s.book, next, if next in s.store then s.store[next] else s.running[next]);
    assert ValueOk(w, s.store, s.book, Reduced(r, ub), s.store[Reduced(r, ub)]);
  }

  /** Without its marker a block never gets its next weights, and its round is never complete. */
  lemma NoMarkerNoWeights<V>(w: World<V>, s: State<V>, r: nat, ub: nat)
    requires Safe(w, s) && (r, ub) !in s.book.markers && ub < w.blocks
    ensures !OnHand(s, Weights(r + 1, ub)) && !Complete(w, s, r)
  {
    if OnHand(s, Weights(r + 1, ub)) {
      WeightsMeanMarker(w, s, r, ub);
    }
    assert !HasWeights(s.store, r + 1, ub);
  }

  /**
   A round whose block was emitted to P different servers, with M * min(R, P) below both what the quorum asks
   for and its least, never gets that block's reduce, however long the run: it is never complete.
   */
  lemma StarvedBlock<V>(w: World<V>, states: seq<State<V>>, steps: seq<Step<V>>, i: nat, j: nat, r: nat, ub: nat,
                        servers: seq<WorkerId>)
    requires EmittedAt(w, states, steps, i, r, ub, servers) && i < j < |states| && Distinct(servers)
    requires var most := w.params.mbs * Min(w.params.replicas, |servers|);
             most < Least(w.params) && most < Target(w.params)
    ensures (r, ub) !in states[j].book.markers && !Complete(w, states[j], r)
  {
    RunSafeAt(w, states, steps, j);
    DeltasBounded(w, states, steps, i, j, r, ub, servers);
    if (r, ub) in states[j].book.markers {
      var e := MarkerMeansQuorum(w, states[j], r, ub);
    }
    NoMarkerNoWeights(w, states[j], r, ub);
  }

  // ------------------------------------------------------------------------
  // A timeout that a restart switches off
  // ------------------------------------------------------------------------

  /** The cursor's round was emitted, but by a process whose clock for it is gone. */
  ghost predicate StartUnknown<V>(s: State<V>) { s.cursor in s.emitted && s.cursor !in s.started }

  lemma {:induction false} MarkersAfterBooking<V>(p: Params, store: map<Artifact, V>, b: Book, round: nat,
                                                  elapsed: real, due: int, n: nat, ub: nat)
    ensures (round, ub) in BookUpTo(p, store, b, round, elapsed, due, n).markers <==>
            (round, ub) in b.markers || (ub < n && QuorumMet(p, |DeltasOf(store, round, ub)|, elapsed))
    decreases n
  {
    if n > 0 {
      MarkersAfterBooking(p, store, b, round, elapsed, due, n - 1, ub);
    }
  }

  /** The tick looks at the quorums: there are rounds left and workers up. */
  predicate Active<V>(w: World<V>, s: State<V>, step: Step<V>)
  {
    step.Ticks? && !AtEnd(w, s.cursor) && step.workers != []
  }

  /** One step from a state whose round has no recorded start. */
  lemma StepWithoutStart<V>(w: World<V>, s: State<V>, step: Step<V>, ub: nat)
    requires Enabled(w, s, step) && StartUnknown(s) && w.params.maxSec > 0.0 && ub < w.blocks
    ensures var s' := Apply(w, s, step);
            && (s'.cursor == s.cursor ==> StartUnknown(s'))
            && ((s.cursor, ub) in s'.book.markers <==>
                  (s.cursor, ub) in s.book.markers ||
                  (Active(w, s, step) && |DeltasOf(s.store, s.cursor, ub)| >= Target(w.params)))
  {
    if Active(w, s, step) {
      MarkersAfterBooking(w.params, s.store, s.book, s.cursor, Elapsed(s.started, s.cursor, step.now),
                          Deadline(step.now), w.blocks, ub);
    }
  }

  /**
   After a restart the timeout is off for the round in flight. In every later state with the same cursor
   its start is still unrecorded, and a tick marks a block exactly when its deltas reach the full target.
   */
  lemma {:induction false} NoTimeoutAfterRestart<V>(w: World<V>, states: seq<State<V>>, steps: seq<Step<V>>, i: nat,
                                                    j: nat, ub: nat)
    requires ValidRun(w, states, steps) && i < j < |states| && ub < w.blocks && w.params.maxSec > 0.0
    requires steps[i].Restarts? && states[i].cursor in states[i].emitted
    requires forall m :: i <= m <= j ==> states[m].cursor == states[i].cursor
    ensures StartUnknown(states[j])
    ensures j < |steps| ==>
            ((states[j].cursor, ub) in states[j + 1].book.markers <==>
              (states[j].cursor, ub) in states[j].book.markers ||
              (Active(w, states[j], steps[j]) && |DeltasOf(states[j].store, states[j].cursor, ub)| >= Target(w.params)))
    decreases j
  {
    assert StepAt(w, states, steps, j - 1);
    if i + 1 < j {
      NoTimeoutAfterRestart(w, states, steps, i, j - 1, ub);
      StepWithoutStart(w, states[j - 1], steps[j - 1], ub);
    }
    if j < |steps| {
      assert StepAt(w, states, steps, j);
      StepWithoutStart(w, states[j], steps[j], ub);
    }
  }

  /** The round of the cursor waits for a block that will not be marked. */
  ghost predicate Stalled<V>(s: State<V>, r: nat, ub: nat)
  {
    StartUnknown(s) && s.cursor == r && (r, ub) !in s.book.markers
  }

  lemma StaysStalled<V>(w: World<V>, s: State<V>, step: Step<V>, r: nat, ub: nat)
    requires Enabled(w, s, step) && Safe(w, s) && Stalled(s, r, ub) && ub < w.blocks && w.params.maxSec > 0.0
    requires |DeltasOf(s.store, r, ub)| < Target(w.params)
    ensures Stalled(Apply(w, s, step), r, ub)
  {
    StepWithoutStart(w, s, step, ub);
    NoMarkerNoWeights(w, s, r, ub);
    if step.Ticks? {
      var elapsed, n := TickParts(w, s, step.now, step.graceOver, step.workers, step.pin);
      assert !HasWeights(s.store, r + 1, ub);
    }
  }

  lemma StalledNext<V>(w: World<V>, states: seq<State<V>>, steps: seq<Step<V>>, i: nat, j: nat, r: nat, ub: nat,
                       servers: seq<WorkerId>)
    requires EmittedAt(w, states, steps, i, r, ub, servers) && i < j < |steps| && Distinct(servers)
    requires w.params.mbs * Min(w.params.replicas, |servers|) < Target(w.params) && w.params.maxSec > 0.0
    requires Stalled(states[j], r, ub)
    ensures Stalled(states[j + 1], r, ub)
  {
    RunSafeAt(w, states, steps, j);
    DeltasBounded(w, states, steps, i, j, r, ub, servers);
    assert StepAt(w, states, steps, j);
    StaysStalled(w, states[j], steps[j], r, ub);
  }

  /**
   Once a restart has come between the emission of a round with fewer servers than replicas and the reduce of
   one of its blocks, that block never gets its reduce and the cursor never leaves the round, whatever
   happens later: not even when the deltas there are would have met the timed quorum.
   */
  lemma {:induction false} StalledForEver<V>(w: World<V>, states: seq<State<V>>, steps: seq<Step<V>>, i: nat, k: nat,
                                             j: nat, r: nat, ub: nat, servers: seq<WorkerId>)
    requires EmittedAt(w, states, steps, i, r, ub, servers) && i < k <= j < |states| && Distinct(servers)
    requires w.params.mbs * Min(w.params.replicas, |servers|) < Target(w.params) && w.params.maxSec > 0.0
    requires Stalled(states[k], r, ub)
    ensures Stalled(states[j], r, ub)
    decreases j
  {
    if k < j {
      StalledForEver(w, states, steps, i, k, j - 1, r, ub, servers);
      StalledNext(w, states, steps, i, j - 1, r, ub, servers);
    }
  }

  // ------------------------------------------------------------------------
  // Such a run
  // ------------------------------------------------------------------------

  lemma ExtendRun<V>(w: World<V>, states: seq<State<V>>, steps: seq<Step<V>>, step: Step<V>)
    requires ValidRun(w, states, steps) && Enabled(w, states[|steps|], step)
    ensures ValidRun(w, states + [Apply(w, states[|steps|], step)], steps + [step])
  {
    var after, taken := states + [Apply(w, states[|steps|], step)], steps + [step];
    forall i | 0 <= i < |taken| ensures StepAt(w, after, taken, i) {
      if i < |steps| {
        assert StepAt(w, states, steps, i);
      }
    }
  }

  /** One block, two replicas of one microbatch, and the default quorum: two deltas, or one when the time is up. */
  predicate OneBlock<V>(w: World<V>)
  {
    && w.blocks == 1 && w.params.replicas == 2 && w.params.mbs == 1 && w.params.target.None? && w.params.least.None?
    && w.params.maxSec > 0.0 && !AtEnd(w, 0)
  }

  lemma OneServerPlan(p: Params, x: WorkerId)
    requires p.replicas == 2 && p.mbs == 1
    ensures PlanOf(p, 0, 0, [x]) == {Delta(0, 0, 0, x)}
  {
    assert RoundRobin([x], 0) == x && RoundRobin([x], 1) == x;
    assert KeysOf([x], 0, 0, 1) == {(0, x)} && KeysOf([x], 0, 0, 2) == {(0, x)};
    assert DeltaKeys([x], 2, 0) == {} && DeltaKeys([x], 2, 1) == {(0, x)};
  }

  /** The first tick emits round 0 to the only worker and marks nothing. */
  lemma FirstTick<V>(w: World<V>, x: WorkerId, now: real) returns (s: State<V>)
    requires OneBlock(w)
    ensures s == Tick(w, Start(w, now), now, true, [x], [[x]])
    ensures s == Start(w, now).(emitted := map[0 := Deadline(now)], inner := {Delta(0, 0, 0, x)},
                                started := map[0 := now])
  {
    var s0 := Start(w, now);
    var due := Deadline(now);
    var s1 := EmitRound(w, s0, 0, now, [x], [[x]]);
    OneServerPlan(w.params, x);
    assert InnerUpTo(w.params, 0, [x], [[x]], 0) == {};
    assert InnerUpTo(w.params, 0, [x], [[x]], 1) == {Delta(0, 0, 0, x)};
    assert DeltasOf(s0.store, 0, 0) == {};
    var b := s1.book;
    assert BookUpTo(w.params, s1.store, b, 0, 0.0, due, 0) == b;
    assert BookOne(w.params, s1.store, b, 0, 0, 0.0, due) == b;
    assert BookUpTo(w.params, s1.store, b, 0, 0.0, due, 1) == b;
    assert Reduces(w, s1, 0, now) == s1;
    assert !HasWeights(s1.store, 1, 0);
    s := Tick(w, s0, now, true, [x], [[x]]);
  }

  /** A worker makes an artifact without delay. */
  function MadeAtOnce<V>(w: World<V>, s: State<V>, a: Artifact, v: V): State<V>
    requires CanMake(w, s, a, s.clock)
  {
    s.(store := s.store[a := Made(w, s, a, v, s.clock)])
  }

  lemma ExtendByMaking<V>(w: World<V>, states: seq<State<V>>, steps: seq<Step<V>>, a: Artifact, v: V, s: State<V>)
    returns (states': seq<State<V>>, steps': seq<Step<V>>)
    requires ValidRun(w, states, steps) && s == states[|steps|]
    requires CanMake(w, s, a, s.clock) && a !in s.store && a !in s.running
    ensures ValidRun(w, states', steps') && |steps'| == |steps| + 2 && states <= states' && steps <= steps'
    ensures states'[|steps'|] == MadeAtOnce(w, s, a, v)
  {
    var begin := Begins(a, v, s.clock);
    var s1 := Apply(w, s, begin);
    assert s1.running - {a} == s.running;
    ExtendRun(w, states, steps, begin);
    ExtendRun(w, states + [s1], steps + [begin], Lands(a));
    states', steps' := states + [s1] + [MadeAtOnce(w, s, a, v)], steps + [begin] + [Lands(a)];
  }

  /**
   A reachable state in which the one delta there is would meet the timed quorum, and the block is stalled:
   a round with one server and two replicas, its forward and inner steps done, and a restart.
   */
  lemma StallReached<V>(w: World<V>, x: WorkerId, v: V, now: real) returns (states: seq<State<V>>, steps: seq<Step<V>>)
    requires OneBlock(w)
    ensures EmittedAt(w, states, steps, 0, 0, 0, [x]) && Distinct([x]) && |steps| == 6
    ensures w.params.mbs * Min(w.params.replicas, 1) < Target(w.params)
    ensures |DeltasOf(states[6].store, 0, 0)| == 1 && QuorumMet(w.params, 1, w.params.maxSec)
    ensures Stalled(states[6], 0, 0)
  {
    var s: State<V>;
    states, steps, s := DeltaStored(w, x, v, now);
    OneBlockQuorum(w);
    ExtendRun(w, states, steps, Restarts);
    states, steps := states + [s.(started := map[])], steps + [Restarts];
  }

  lemma OneBlockQuorum<V>(w: World<V>)
    requires OneBlock(w)
    ensures w.params.mbs * Min(w.params.replicas, 1) < Target(w.params) && QuorumMet(w.params, 1, w.params.maxSec)
  {
  }

  /** The first round is emitted, its forward step made, and its delta stored. */
  lemma DeltaStored<V>(w: World<V>, x: WorkerId, v: V, now: real)
    returns (states: seq<State<V>>, steps: seq<Step<V>>, s: State<V>)
    requires OneBlock(w)
    ensures EmittedAt(w, states, steps, 0, 0, 0, [x]) && |steps| == 5 && s == states[5]
    ensures DeltasOf(s.store, 0, 0) == {Delta(0, 0, 0, x)} && s.cursor == 0 && s.book == Book(map[], {}, {}, [])
    ensures 0 in s.emitted
  {
    var a := Delta(0, 0, 0, x);
    var s1;
    states, steps, s1 := FirstTickRun(w, x, now);
    states, steps := ExtendByMaking(w, states, steps, Cut(0, 0, 0), v, s1);
    var s2 := MadeAtOnce(w, s1, Cut(0, 0, 0), v);
    states, steps := ExtendByMaking(w, states, steps, a, v, s2);
    s := MadeAtOnce(w, s2, a, v);
    assert DeltasOf(s.store, 0, 0) == {a};
  }

  lemma FirstTickRun<V>(w: World<V>, x: WorkerId, now: real)
    returns (states: seq<State<V>>, steps: seq<Step<V>>, s1: State<V>)
    requires OneBlock(w)
    ensures EmittedAt(w, states, steps, 0, 0, 0, [x]) && |steps| == 1 && s1 == states[1]
    ensures s1 == Start(w, now).(emitted := map[0 := Deadline(now)], inner := {Delta(0, 0, 0, x)},
                                 started := map[0 := now])
    ensures CanMake(w, s1, Cut(0, 0, 0), s1.clock)
  {
    var s0, tick := Start(w, now), Ticks(now, true, [x], [[x]]);
    s1 := FirstTick(w, x, now);
    ExtendRun(w, [s0], [], tick);
    InTimeAtFirst(now);
    states, steps := [s0] + [s1], [] + [tick];
  }

  /** A job is in time when it is written. */
  lemma InTimeAtFirst(now: real)
    ensures InTime(Deadline(now), now)
  {
  }
}
