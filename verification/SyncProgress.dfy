/**
 When a round in flight can still finish: exactly when every block has its next weights on hand, or a reduce
 that is in time, or enough deltas that are there or can still be made. Jobs are not written again, so a
 passed deadline is final.
 */
module SyncProgress {
  import opened Common
  import opened PinTable
  import opened Quorum
  import opened SyncRounds
  import opened SyncStalls

  // ------------------------------------------------------------------------
  // Continuations
  // ------------------------------------------------------------------------

  /** The steps can be taken one after the other from the state. */
  ghost predicate Allowed<V>(w: World<V>, s: State<V>, steps: seq<Step<V>>)
    decreases |steps|
  {
    steps == [] || (Enabled(w, s, steps[0]) && Allowed(w, Apply(w, s, steps[0]), steps[1..]))
  }

  ghost function After<V>(w: World<V>, s: State<V>, steps: seq<Step<V>>): State<V>
    requires Allowed(w, s, steps)
    decreases |steps|
  {
    if steps == [] then s else After(w, Apply(w, s, steps[0]), steps[1..])
  }

  lemma First<V>(w: World<V>, s: State<V>, step: Step<V>, rest: seq<Step<V>>)
    requires Enabled(w, s, step) && Allowed(w, Apply(w, s, step), rest)
    ensures Allowed(w, s, [step] + rest) && After(w, s, [step] + rest) == After(w, Apply(w, s, step), rest)
  {
    assert ([step] + rest)[1..] == rest;
  }

  lemma {:induction false} Joined<V>(w: World<V>, s: State<V>, a: seq<Step<V>>, b: seq<Step<V>>)
    requires Allowed(w, s, a) && Allowed(w, After(w, s, a), b)
    ensures Allowed(w, s, a + b) && After(w, s, a + b) == After(w, After(w, s, a), b)
    decreases |a|
  {
    if a == [] {
      assert a + b == b;
    } else {
      Joined(w, Apply(w, s, a[0]), a[1..], b);
      First(w, s, a[0], a[1..] + b);
      assert a + b == [a[0]] + (a[1..] + b);
    }
  }

  /** Some steps from here make the cursor leave its round. */
  ghost predicate CanFinish<V(!new)>(w: World<V>, s: State<V>)
  {
    exists steps :: Finishes(w, s, steps)
  }

  ghost predicate Finishes<V>(w: World<V>, s: State<V>, steps: seq<Step<V>>)
  {
    Allowed(w, s, steps) && After(w, s, steps).cursor > s.cursor
  }

  // ------------------------------------------------------------------------
  // The condition
  // ------------------------------------------------------------------------

  /** The inner steps of one block of a round. */
  function InnerOf(inner: set<Artifact>, round: nat, ub: nat): set<Artifact>
  {
    set a | a in inner && a.Delta? && a.round == round && a.ub == ub
  }

  /** The forward and inner jobs of the round in flight may still be begun. */
  predicate StillInTime<V>(s: State<V>) { RoundInTime(s, s.cursor, s.clock) }

  /** The target of a block and microbatch is on hand, or its forward job is in time. */
  predicate CutCan<V>(w: World<V>, s: State<V>, ub: nat, mb: nat)
  {
    OnHand(s, Cut(s.cursor, ub, mb)) || (mb < w.params.mbs && StillInTime(s))
  }

  /** The delta is on hand, or its inner step is in time and has its target or can have it. */
  predicate DeltaCan<V>(w: World<V>, s: State<V>, a: Artifact)
    requires a.Delta?
  {
    OnHand(s, a) || (StillInTime(s) && CutCan(w, s, a.ub, a.mb))
  }

  function DeltasCan<V>(w: World<V>, s: State<V>, ub: nat): set<Artifact>
  {
    set a | a in InnerOf(s.inner, s.cursor, ub) && DeltaCan(w, s, a)
  }

  /** The timeout can still come: the round's start is recorded, or no time has to pass. */
  predicate TimeoutLeft<V>(w: World<V>, s: State<V>) { s.cursor in s.started || w.params.maxSec <= 0.0 }

  predicate Reaches<V>(w: World<V>, s: State<V>, count: nat)
  {
    count >= Target(w.params) || (count >= Least(w.params) && TimeoutLeft(w, s))
  }

  /** What the outer step reads of the forward pass is there or can be had. */
  predicate OuterCan<V>(w: World<V>, s: State<V>, ub: nat) { w.extras ==> CutCan(w, s, ub, 0) }

  /**
   The block has its next weights on hand. Or its outer step can have what it reads of the forward pass, and it
   has a reduce and outer step in time, or none yet and enough deltas for a quorum that can still be met.
   */
  predicate BlockCan<V>(w: World<V>, s: State<V>, ub: nat)
  {
    || OnHand(s, Weights(s.cursor + 1, ub))
    || (OuterCan(w, s, ub) &&
        if (s.cursor, ub) in s.book.markers then BlockInTime(s, s.cursor, ub, s.clock)
        else Reaches(w, s, |DeltasCan(w, s, ub)|))
  }

  predicate BlocksCan<V>(w: World<V>, s: State<V>) { forall ub :: 0 <= ub < w.blocks ==> BlockCan(w, s, ub) }

  /** What every state of a run with its cursor's round in flight satisfies. */
  ghost predicate InFlight<V>(w: World<V>, s: State<V>)
  {
    Safe(w, s) && DeltasFromInner(s) && s.cursor in s.emitted && !AtEnd(w, s.cursor)
  }

  // ------------------------------------------------------------------------
  // No step makes possible what was not
  // ------------------------------------------------------------------------

  lemma {:induction false} InnerRound(p: Params, round: nat, workers: seq<WorkerId>, pin: seq<seq<WorkerId>>, n: nat)
    requires n <= |pin| && workers != []
    ensures forall a :: a in InnerUpTo(p, round, workers, pin, n) ==> a.round == round
    decreases n
  {
    if n > 0 {
      InnerRound(p, round, workers, pin, n - 1);
    }
  }

  /** The round in flight and the jobs planned for it are the same, and no time is won. */
  ghost predicate SameRound<V>(s: State<V>, s': State<V>)
  {
    && s.clock <= s'.clock && s.cursor in s.emitted && s.cursor in s'.emitted
    && s'.emitted[s.cursor] == s.emitted[s.cursor]
    && (s.cursor in s'.started ==> s.cursor in s.started)
    && forall ub :: InnerOf(s'.inner, s.cursor, ub) == InnerOf(s.inner, s.cursor, ub)
  }

  /** A tick plans no further inner steps for a round it finds emitted. */
  lemma TickSameRound<V>(w: World<V>, s: State<V>, now: real, graceOver: bool, workers: seq<WorkerId>,
                         pin: seq<seq<WorkerId>>)
    requires |pin| == w.blocks && s.cursor in s.emitted && s.clock <= now
    ensures var s' := Tick(w, s, now, graceOver, workers, pin).(clock := now);
            SameRound(s, s') && (s.cursor in s.started ==> s.cursor in s'.started)
  {
    if workers != [] {
      InnerRound(w.params, s.cursor + 1, workers, pin, w.blocks);
    }
  }

  lemma StepSameRound<V>(w: World<V>, s: State<V>, step: Step<V>, s': State<V>)
    requires Enabled(w, s, step) && s' == Apply(w, s, step) && s.cursor in s.emitted
    ensures SameRound(s, s') && (!step.Restarts? && s.cursor in s.started ==> s.cursor in s'.started)
  {
    if step.Ticks? {
      TickSameRound(w, s, step.now, step.graceOver, step.workers, step.pin);
    }
  }

  /** What comes on hand could be made. */
  lemma StepHands<V>(w: World<V>, s: State<V>, step: Step<V>, s': State<V>, a: Artifact)
    requires Enabled(w, s, step) && s' == Apply(w, s, step) && OnHand(s', a)
    ensures OnHand(s, a) || CanMake(w, s, a, s'.clock)
  {
    if step.Ticks? {
      var elapsed, n := TickParts(w, s, step.now, step.graceOver, step.workers, step.pin);
    }
  }

  lemma CutBefore<V>(w: World<V>, s: State<V>, step: Step<V>, s': State<V>, ub: nat, mb: nat)
    requires Enabled(w, s, step) && s' == Apply(w, s, step) && SameRound(s, s') && s'.cursor == s.cursor
    requires CutCan(w, s', ub, mb)
    ensures CutCan(w, s, ub, mb)
  {
    if OnHand(s', Cut(s.cursor, ub, mb)) {
      StepHands(w, s, step, s', Cut(s.cursor, ub, mb));
    }
  }

  lemma DeltaBefore<V>(w: World<V>, s: State<V>, step: Step<V>, s': State<V>, a: Artifact)
    requires Enabled(w, s, step) && s' == Apply(w, s, step) && SameRound(s, s') && s'.cursor == s.cursor
    requires a.Delta? && a.round == s.cursor && DeltaCan(w, s', a)
    ensures DeltaCan(w, s, a)
  {
    if OnHand(s', a) {
      StepHands(w, s, step, s', a);
    } else {
      CutBefore(w, s, step, s', a.ub, a.mb);
    }
  }

  lemma DeltasBefore<V>(w: World<V>, s: State<V>, step: Step<V>, s': State<V>, ub: nat)
    requires Enabled(w, s, step) && s' == Apply(w, s, step) && SameRound(s, s') && s'.cursor == s.cursor
    ensures |DeltasCan(w, s', ub)| <= |DeltasCan(w, s, ub)|
  {
    forall a | a in DeltasCan(w, s', ub) ensures a in DeltasCan(w, s, ub) {
      assert InnerOf(s'.inner, s.cursor, ub) == InnerOf(s.inner, s.cursor, ub);
      DeltaBefore(w, s, step, s', a);
    }
    SubsetSize(DeltasCan(w, s', ub), DeltasCan(w, s, ub));
  }

  lemma StoredDeltasCan<V>(w: World<V>, s: State<V>, ub: nat)
    requires DeltasFromInner(s)
    ensures |DeltasOf(s.store, s.cursor, ub)| <= |DeltasCan(w, s, ub)|
  {
    SubsetSize(DeltasOf(s.store, s.cursor, ub), DeltasCan(w, s, ub));
  }

  /** A tick that marks a block of the round in flight finds a quorum there. */
  lemma MarkedByTick<V>(w: World<V>, s: State<V>, step: Step<V>, s': State<V>, ub: nat)
    requires InFlight(w, s) && Enabled(w, s, step) && s' == Apply(w, s, step) && ub < w.blocks
    requires (s.cursor, ub) !in s.book.markers && (s.cursor, ub) in s'.book.markers
    ensures Reaches(w, s, |DeltasCan(w, s, ub)|) && BlockInTime(s', s.cursor, ub, s'.clock)
    ensures s'.book.reduces[(s.cursor, ub)].deadline == Deadline(s'.clock)
  {
    OnlyTicksMove(w, s, step, s');
    var elapsed := Elapsed(s.started, s.cursor, step.now);
    MarkersAfterBooking(w.params, s.store, s.book, s.cursor, elapsed, Deadline(step.now), w.blocks, ub);
    StoredDeltasCan(w, s, ub);
    DueAfterBooking(w.params, s.store, s.book, s.cursor, elapsed, Deadline(step.now), w.blocks, ub);
    InTimeAtFirst(step.now);
    StepSafe(w, s, step);
  }

  /** A block marked by a tick has the deadline of that tick. */
  lemma {:induction false} DueAfterBooking<V>(p: Params, store: map<Artifact, V>, b: Book, round: nat, elapsed: real,
                                              due: int, n: nat, ub: nat)
    requires (round, ub) !in b.markers && (round, ub) !in b.reduces
    ensures var b' := BookUpTo(p, store, b, round, elapsed, due, n);
            && ((round, ub) in b'.markers <==> (round, ub) in b'.reduces)
            && ((round, ub) in b'.reduces ==> b'.reduces[(round, ub)].deadline == due)
    decreases n
  {
    if n > 0 {
      DueAfterBooking(p, store, b, round, elapsed, due, n - 1, ub);
    }
  }

  lemma StepBook<V>(w: World<V>, s: State<V>, step: Step<V>, s': State<V>)
    requires Safe(w, s) && Enabled(w, s, step) && s' == Apply(w, s, step)
    ensures Safe(w, s') && BookGrows(s.book, s'.book) && s.book.markers <= s'.book.markers
  {
    StepSafe(w, s, step);
    if step.Ticks? {
      var elapsed, n := TickParts(w, s, step.now, step.graceOver, step.workers, step.pin);
      BookUpToGrows(w.params, s.store, s.book, s.cursor, elapsed, Deadline(step.now), n);
    }
  }

  /** A block whose next weights are being made, or that the cursor leaves behind, could have them. */
  lemma WeightsBefore<V>(w: World<V>, s: State<V>, step: Step<V>, s': State<V>, ub: nat)
    requires InFlight(w, s) && Enabled(w, s, step) && s' == Apply(w, s, step) && SameRound(s, s')
    requires OnHand(s', Weights(s.cursor + 1, ub))
    ensures BlockCan(w, s, ub)
  {
    StepHands(w, s, step, s', Weights(s.cursor + 1, ub));
  }

  lemma MarkedBefore<V>(w: World<V>, s: State<V>, step: Step<V>, s': State<V>, ub: nat)
    requires InFlight(w, s) && Enabled(w, s, step) && s' == Apply(w, s, step) && s.clock <= s'.clock && ub < w.blocks
    requires OuterCan(w, s, ub) && BlockInTime(s', s.cursor, ub, s'.clock)
    ensures BlockCan(w, s, ub)
  {
    StepBook(w, s, step, s');
    if (s.cursor, ub) !in s.book.markers {
      MarkedByTick(w, s, step, s', ub);
    }
  }

  lemma UnmarkedBefore<V>(w: World<V>, s: State<V>, step: Step<V>, s': State<V>, ub: nat)
    requires InFlight(w, s) && Enabled(w, s, step) && s' == Apply(w, s, step) && SameRound(s, s')
    requires s'.cursor == s.cursor && OuterCan(w, s, ub) && (s.cursor, ub) !in s'.book.markers
    requires Reaches(w, s', |DeltasCan(w, s', ub)|)
    ensures BlockCan(w, s, ub)
  {
    StepBook(w, s, step, s');
    DeltasBefore(w, s, step, s', ub);
  }

  /** What a block can have after a step of any kind it could have before. */
  lemma CanBefore<V>(w: World<V>, s: State<V>, step: Step<V>, s': State<V>, ub: nat)
    requires InFlight(w, s) && Enabled(w, s, step) && s' == Apply(w, s, step) && ub < w.blocks
    requires s'.cursor == s.cursor && BlockCan(w, s', ub)
    ensures BlockCan(w, s, ub)
  {
    StepSameRound(w, s, step, s');
    if OnHand(s', Weights(s.cursor + 1, ub)) {
      WeightsBefore(w, s, step, s', ub);
    } else {
      if w.extras {
        CutBefore(w, s, step, s', ub, 0);
      }
      if (s.cursor, ub) in s'.book.markers {
        MarkedBefore(w, s, step, s', ub);
      } else {
        UnmarkedBefore(w, s, step, s', ub);
      }
    }
  }

  /** The cursor leaves only a round whose blocks have their next weights. */
  lemma LeavesDone<V>(w: World<V>, s: State<V>, step: Step<V>, s': State<V>, ub: nat)
    requires Enabled(w, s, step) && s' == Apply(w, s, step) && s'.cursor != s.cursor && ub < w.blocks
    ensures Weights(s.cursor + 1, ub) in s.store
  {
    OnlyTicksMove(w, s, step, s');
    TickLeavesDone(w, s, step.now, step.graceOver, step.workers, step.pin, ub);
  }

  lemma OnlyTicksMove<V>(w: World<V>, s: State<V>, step: Step<V>, s': State<V>)
    requires Enabled(w, s, step) && s' == Apply(w, s, step) && (s'.cursor != s.cursor || s'.book != s.book)
    ensures step.Ticks?
  {
  }

  lemma TickLeavesDone<V>(w: World<V>, s: State<V>, now: real, graceOver: bool, workers: seq<WorkerId>,
                          pin: seq<seq<WorkerId>>, ub: nat)
    requires |pin| == w.blocks && ub < w.blocks && Tick(w, s, now, graceOver, workers, pin).cursor != s.cursor
    ensures Weights(s.cursor + 1, ub) in s.store
  {
    var elapsed, n := TickParts(w, s, now, graceOver, workers, pin);
    assert HasWeights(s.store, s.cursor + 1, ub);
  }

  lemma StepKeepsInFlight<V>(w: World<V>, s: State<V>, step: Step<V>, s': State<V>)
    requires InFlight(w, s) && Enabled(w, s, step) && s' == Apply(w, s, step)
    ensures s.cursor in s'.emitted && (s'.cursor == s.cursor ==> InFlight(w, s'))
  {
    StepSafe(w, s, step);
    StepSameRound(w, s, step, s');
    StepDeltas(w, s, step, s');
  }

  lemma TickDeltas<V>(w: World<V>, s: State<V>, now: real, graceOver: bool, workers: seq<WorkerId>,
                      pin: seq<seq<WorkerId>>)
    requires |pin| == w.blocks && DeltasFromInner(s)
    ensures DeltasFromInner(Tick(w, s, now, graceOver, workers, pin))
  {
    if AtEnd(w, s.cursor) || workers == [] || (s.cursor !in s.emitted && s.cursor == 0 && !graceOver) {
    } else {
      var s1 := if s.cursor !in s.emitted then EmitRound(w, s, s.cursor, now, workers, pin) else s;
      EmitDeltas(w, s, s.cursor, now, workers, pin);
      AdvanceDeltas(w, Reduces(w, s1, s1.cursor, now), now, workers, pin);
    }
  }

  lemma EmitDeltas<V>(w: World<V>, s: State<V>, round: nat, now: real, workers: seq<WorkerId>,
                      pin: seq<seq<WorkerId>>)
    requires |pin| == w.blocks && workers != [] && DeltasFromInner(s)
    ensures DeltasFromInner(EmitRound(w, s, round, now, workers, pin))
  {
    InnerRound(w.params, round, workers, pin, w.blocks);
  }

  lemma AdvanceDeltas<V>(w: World<V>, s: State<V>, now: real, workers: seq<WorkerId>, pin: seq<seq<WorkerId>>)
    requires |pin| == w.blocks && workers != [] && DeltasFromInner(s)
    ensures DeltasFromInner(Advance(w, s, now, workers, pin))
  {
    var s1 := s.(cursor := s.cursor + 1, completed := s.completed + [s.cursor]);
    EmitDeltas(w, s1, s1.cursor, now, workers, pin);
  }

  lemma StepDeltas<V>(w: World<V>, s: State<V>, step: Step<V>, s': State<V>)
    requires Enabled(w, s, step) && s' == Apply(w, s, step) && DeltasFromInner(s)
    ensures DeltasFromInner(s')
  {
    if step.Ticks? {
      TickDeltas(w, s, step.now, step.graceOver, step.workers, step.pin);
    }
  }

  /** A round that some steps finish could be finished. */
  lemma {:induction false} FinishedCould<V>(w: World<V>, s: State<V>, steps: seq<Step<V>>, ub: nat)
    requires InFlight(w, s) && Finishes(w, s, steps) && ub < w.blocks
    ensures BlockCan(w, s, ub)
    decreases |steps|
  {
    var s' := Apply(w, s, steps[0]);
    if s'.cursor == s.cursor {
      StepKeepsInFlight(w, s, steps[0], s');
      FinishedCould(w, s', steps[1..], ub);
      CanBefore(w, s, steps[0], s', ub);
    } else {
      LeavesDone(w, s, steps[0], s', ub);
    }
  }

  // ------------------------------------------------------------------------
  // Workers make what they can
  // ------------------------------------------------------------------------

  /** Steps of workers that add to the store and leave the rest. */
  ghost predicate Adds<V>(s: State<V>, s': State<V>)
  {
    Within(s.store, s'.store) && s' == s.(store := s'.store)
  }

  lemma AddsTwice<V>(s: State<V>, s1: State<V>, s2: State<V>)
    requires Adds(s, s1) && Adds(s1, s2)
    ensures Adds(s, s2)
  {
  }

  predicate NoRestart<V>(steps: seq<Step<V>>) { forall i :: 0 <= i < |steps| ==> !steps[i].Restarts? }

  /** Begun and landed at once. */
  lemma MakeOne<V>(w: World<V>, s: State<V>, a: Artifact, v: V) returns (steps: seq<Step<V>>)
    requires InFlight(w, s) && CanMake(w, s, a, s.clock) && !OnHand(s, a)
    ensures Allowed(w, s, steps) && NoRestart(steps) && After(w, s, steps) == MadeAtOnce(w, s, a, v)
    ensures InFlight(w, After(w, s, steps)) && Adds(s, After(w, s, steps))
  {
    var begin := Begins(a, v, s.clock);
    var s1 := BeginOne(w, s, a, v);
    LandOne(w, s, s1, a, v);
    First(w, s1, Lands(a), []);
    First(w, s, begin, [Lands(a)] + []);
    steps := [begin] + ([Lands(a)] + []);
  }

  lemma BeginOne<V>(w: World<V>, s: State<V>, a: Artifact, v: V) returns (s': State<V>)
    requires InFlight(w, s) && CanMake(w, s, a, s.clock) && !OnHand(s, a)
    ensures Enabled(w, s, Begins(a, v, s.clock)) && s' == Apply(w, s, Begins(a, v, s.clock)) && InFlight(w, s')
    ensures s' == s.(running := s.running[a := Made(w, s, a, v, s.clock)])
  {
    s' := Apply(w, s, Begins(a, v, s.clock));
    StepKeepsInFlight(w, s, Begins(a, v, s.clock), s');
  }

  lemma LandOne<V>(w: World<V>, s: State<V>, s1: State<V>, a: Artifact, v: V)
    requires CanMake(w, s, a, s.clock) && !OnHand(s, a) && InFlight(w, s1)
    requires s1 == s.(running := s.running[a := Made(w, s, a, v, s.clock)])
    ensures Enabled(w, s1, Lands(a)) && Apply(w, s1, Lands(a)) == MadeAtOnce(w, s, a, v)
    ensures InFlight(w, MadeAtOnce(w, s, a, v)) && Adds(s, MadeAtOnce(w, s, a, v))
  {
    assert s1.running - {a} == s.running;
    StepKeepsInFlight(w, s1, Lands(a), MadeAtOnce(w, s, a, v));
  }

  /** What can be made now and is not on hand: targets and deltas. */
  ghost predicate Makeable<V>(w: World<V>, s: State<V>, todo: set<Artifact>)
  {
    forall a :: a in todo ==> (a.Cut? || a.Delta?) && CanMake(w, s, a, s.clock) && !OnHand(s, a)
  }

  lemma StaysMakeable<V>(w: World<V>, s: State<V>, s': State<V>, todo: set<Artifact>, a: Artifact, v: V)
    requires Makeable(w, s, todo) && a in todo && s' == MadeAtOnce(w, s, a, v)
    ensures Makeable(w, s', todo - {a})
  {
    forall x | x in todo - {a} ensures CanMake(w, s', x, s'.clock) {
      assert CanMake(w, s, x, s.clock);
      if x.Cut? {
        WeightsStay(w, s.store, s'.store, x.round);
      }
    }
  }

  lemma {:induction false} MakeAll<V>(w: World<V>, s: State<V>, todo: set<Artifact>) returns (steps: seq<Step<V>>)
    requires InFlight(w, s) && Makeable(w, s, todo)
    ensures Allowed(w, s, steps) && NoRestart(steps)
    ensures var s' := After(w, s, steps); InFlight(w, s') && Adds(s, s') && todo <= s'.store.Keys
    decreases |todo|
  {
    steps := [];
    if todo != {} {
      var a :| a in todo;
      var v := w.init(0);
      var first := MakeOne(w, s, a, v);
      var s' := MadeAtOnce(w, s, a, v);
      StaysMakeable(w, s, s', todo, a, v);
      var rest := MakeAll(w, s', todo - {a});
      Joined(w, s, first, rest);
      AddsTwice(s, s', After(w, s', rest));
      steps := first + rest;
    }
  }

  /** Nothing is being made. */
  predicate Settled<V>(s: State<V>) { s.running == map[] }

  /** The same round with the same things on hand. */
  ghost predicate SameHands<V>(s: State<V>, s': State<V>)
  {
    s' == s.(store := s'.store, running := s'.running) && forall a :: OnHand(s', a) <==> OnHand(s, a)
  }

  lemma HandsDecide<V>(w: World<V>, s: State<V>, s': State<V>)
    requires SameHands(s, s') && BlocksCan(w, s)
    ensures BlocksCan(w, s')
  {
    forall ub | 0 <= ub < w.blocks ensures BlockCan(w, s', ub) {
      assert BlockCan(w, s, ub);
      assert DeltasCan(w, s', ub) == DeltasCan(w, s, ub);
    }
  }

  /** Everything being made can land. */
  lemma {:induction false} LandAll<V>(w: World<V>, s: State<V>) returns (steps: seq<Step<V>>)
    requires InFlight(w, s)
    ensures Allowed(w, s, steps)
    ensures var s' := After(w, s, steps); InFlight(w, s') && SameHands(s, s') && Settled(s')
    decreases |s.running|
  {
    steps := [];
    if !Settled(s) {
      var a :| a in s.running;
      var s' := Apply(w, s, Lands(a));
      StepKeepsInFlight(w, s, Lands(a), s');
      FewerKeys(s.running, a);
      var rest := LandAll(w, s');
      First(w, s, Lands(a), rest);
      steps := [Lands(a)] + rest;
    }
  }

  lemma FewerKeys<V>(m: map<Artifact, V>, a: Artifact)
    requires a in m
    ensures |m - {a}| < |m|
  {
    assert (m - {a}).Keys == m.Keys - {a};
    assert |(m - {a}).Keys| == |m - {a}| && |m.Keys| == |m|;
  }

  function MissingCuts<V>(w: World<V>, s: State<V>): set<Artifact>
  {
    set ub: nat, mb: nat | ub < w.blocks && mb < w.params.mbs && Cut(s.cursor, ub, mb) !in s.store ::
      Cut(s.cursor, ub, mb)
  }

  function MissingDeltas<V>(w: World<V>, s: State<V>): set<Artifact>
  {
    set a | a in s.inner && a.Delta? && a.round == s.cursor && a.ub < w.blocks && a.mb < w.params.mbs && a !in s.store
  }

  lemma CutsMakeable<V>(w: World<V>, s: State<V>)
    requires InFlight(w, s) && Settled(s) && StillInTime(s)
    ensures Makeable(w, s, MissingCuts(w, s))
  {
    assert AllWeights(w, s.store, s.cursor);
  }

  lemma DeltasMakeable<V>(w: World<V>, s: State<V>)
    requires InFlight(w, s) && Settled(s) && StillInTime(s) && MissingCuts(w, s) == {}
    ensures Makeable(w, s, MissingDeltas(w, s))
  {
    assert AllWeights(w, s.store, s.cursor);
    forall a | a in MissingDeltas(w, s) ensures CanMake(w, s, a, s.clock) {
      assert HasWeights(s.store, s.cursor, a.ub);
      assert Cut(s.cursor, a.ub, a.mb) !in MissingCuts(w, s);
    }
  }

  /** The targets and deltas that can be had are stored. */
  ghost predicate Gathered<V>(w: World<V>, s: State<V>, s': State<V>)
  {
    forall ub :: 0 <= ub < w.blocks ==> GatheredFor(w, s, s', ub)
  }

  ghost predicate GatheredFor<V>(w: World<V>, s: State<V>, s': State<V>, ub: nat)
  {
    && (CutCan(w, s, ub, 0) ==> Cut(s.cursor, ub, 0) in s'.store)
    && DeltasCan(w, s, ub) <= s'.store.Keys
  }

  lemma StoredOfRound<V>(w: World<V>, s: State<V>, s': State<V>, a: Artifact)
    requires InFlight(w, s) && Settled(s) && Adds(s, s') && a.Delta? && a.round == s.cursor && a.ub < w.blocks
    requires a in s.inner && DeltaCan(w, s, a) && (StillInTime(s) ==> MissingDeltas(w, s') == {})
    ensures a in s'.store
  {
    if a !in s.store {
      var cut := Cut(s.cursor, a.ub, a.mb);
      assert cut in s.store ==> ValueOk(w, s.store, s.book, cut, s.store[cut]);
      assert a !in MissingDeltas(w, s');
    }
  }

  lemma NoneMissing<V>(w: World<V>, s: State<V>, s': State<V>)
    requires InFlight(w, s) && Settled(s) && Adds(s, s')
    requires StillInTime(s) ==> MissingCuts(w, s') == {} && MissingDeltas(w, s') == {}
    ensures Gathered(w, s, s')
  {
    forall ub | 0 <= ub < w.blocks ensures GatheredFor(w, s, s', ub) {
      if CutCan(w, s, ub, 0) && Cut(s.cursor, ub, 0) !in s.store {
        assert Cut(s.cursor, ub, 0) !in MissingCuts(w, s');
      }
      forall a | a in DeltasCan(w, s, ub) ensures a in s'.store {
        StoredOfRound(w, s, s', a);
      }
    }
  }

  /** Workers can store all targets and deltas that can be had. */
  lemma Gather<V>(w: World<V>, s: State<V>) returns (steps: seq<Step<V>>)
    requires InFlight(w, s) && Settled(s)
    ensures Allowed(w, s, steps) && NoRestart(steps)
    ensures var s' := After(w, s, steps); InFlight(w, s') && Adds(s, s') && Gathered(w, s, s')
  {
    steps := [];
    if StillInTime(s) {
      CutsMakeable(w, s);
      var cuts := MakeAll(w, s, MissingCuts(w, s));
      var s1 := After(w, s, cuts);
      AllCutsMade(w, s, s1);
      DeltasMakeable(w, s1);
      var deltas := MakeAll(w, s1, MissingDeltas(w, s1));
      var s2 := After(w, s1, deltas);
      AllDeltasMade(w, s1, s2);
      Joined(w, s, cuts, deltas);
      AddsTwice(s, s1, s2);
      steps := cuts + deltas;
    }
    NoneMissing(w, s, After(w, s, steps));
  }

  lemma AllCutsMade<V>(w: World<V>, s: State<V>, s': State<V>)
    requires Adds(s, s') && MissingCuts(w, s) <= s'.store.Keys
    ensures MissingCuts(w, s') == {}
  {
    assert MissingCuts(w, s') <= MissingCuts(w, s);
  }

  lemma AllDeltasMade<V>(w: World<V>, s: State<V>, s': State<V>)
    requires Adds(s, s') && MissingDeltas(w, s) <= s'.store.Keys && MissingCuts(w, s) == {}
    ensures MissingDeltas(w, s') == {} && MissingCuts(w, s') == {}
  {
    AllCutsMade(w, s, s');
    assert MissingDeltas(w, s') <= MissingDeltas(w, s);
  }

  // ------------------------------------------------------------------------
  // Reduces and outer steps
  // ------------------------------------------------------------------------

  /** The outer step has what it reads of the forward pass. */
  predicate OuterReady<V>(w: World<V>, s: State<V>, ub: nat) { w.extras ==> Cut(s.cursor, ub, 0) in s.store }

  /** The block is marked, and its reduce and outer step are in time. */
  predicate Ready<V>(w: World<V>, s: State<V>, ub: nat)
  {
    OuterReady(w, s, ub) && BlockInTime(s, s.cursor, ub, s.clock)
  }

  /** The block is not marked and has the deltas for a quorum that can still be met. */
  predicate Waiting<V>(w: World<V>, s: State<V>, ub: nat)
  {
    OuterReady(w, s, ub) && (s.cursor, ub) !in s.book.markers && Reaches(w, s, |DeltasOf(s.store, s.cursor, ub)|)
  }

  /** Once all is gathered, a block has its weights, is ready or waits for a tick. */
  predicate Underway<V>(w: World<V>, s: State<V>, ub: nat)
  {
    HasWeights(s.store, s.cursor + 1, ub) || Ready(w, s, ub) || Waiting(w, s, ub)
  }

  lemma GatheredUnderway<V>(w: World<V>, s: State<V>, s': State<V>, ub: nat)
    requires InFlight(w, s) && Settled(s) && Adds(s, s') && GatheredFor(w, s, s', ub) && BlockCan(w, s, ub)
    ensures Underway(w, s', ub)
  {
    if Weights(s.cursor + 1, ub) !in s.store && (s.cursor, ub) !in s.book.markers {
      SubsetSize(DeltasCan(w, s, ub), DeltasOf(s'.store, s.cursor, ub));
    }
  }

  lemma InputsOfMarked<V>(w: World<V>, s: State<V>, q: (nat, nat))
    requires Safe(w, s) && q in s.book.reduces
    ensures q in s.book.outers && InputsThere(s.store, s.book.reduces[q].inputs)
  {
    assert Logged(s.book, q);
    var i :| 0 <= i < |s.book.log| && ForBlock(s.book.log[i], q);
    assert EmissionOk(w.params, s.store, s.book, s.book.log[i]);
  }

  lemma ReduceBlock<V>(w: World<V>, s: State<V>, ub: nat) returns (steps: seq<Step<V>>)
    requires InFlight(w, s) && Settled(s) && Ready(w, s, ub)
    ensures Allowed(w, s, steps)
    ensures var s' := After(w, s, steps); InFlight(w, s') && Adds(s, s') && Reduced(s.cursor, ub) in s'.store
  {
    steps := [];
    if Reduced(s.cursor, ub) !in s.store {
      InputsOfMarked(w, s, (s.cursor, ub));
      steps := MakeOne(w, s, Reduced(s.cursor, ub), w.init(0));
    }
  }

  lemma OuterBlock<V>(w: World<V>, s: State<V>, ub: nat) returns (steps: seq<Step<V>>)
    requires InFlight(w, s) && Settled(s) && Ready(w, s, ub) && ub < w.blocks && Reduced(s.cursor, ub) in s.store
    ensures Allowed(w, s, steps)
    ensures var s' := After(w, s, steps);
            InFlight(w, s') && Adds(s, s') && HasWeights(s'.store, s.cursor + 1, ub)
  {
    steps := [];
    if Weights(s.cursor + 1, ub) !in s.store {
      InputsOfMarked(w, s, (s.cursor, ub));
      assert AllWeights(w, s.store, s.cursor) && HasWeights(s.store, s.cursor, ub);
      steps := MakeOne(w, s, Weights(s.cursor + 1, ub), w.init(0));
    }
  }

  lemma FinishBlock<V>(w: World<V>, s: State<V>, ub: nat) returns (steps: seq<Step<V>>)
    requires InFlight(w, s) && Settled(s) && ub < w.blocks
    ensures Allowed(w, s, steps)
    ensures var s' := After(w, s, steps);
            InFlight(w, s') && Adds(s, s') && (Ready(w, s, ub) ==> HasWeights(s'.store, s.cursor + 1, ub))
  {
    steps := [];
    if Ready(w, s, ub) {
      var reduce := ReduceBlock(w, s, ub);
      var s1 := After(w, s, reduce);
      var outer := OuterBlock(w, s1, ub);
      Joined(w, s, reduce, outer);
      AddsTwice(s, s1, After(w, s1, outer));
      steps := reduce + outer;
    }
  }

  /** Of the blocks before `n`, those that are ready have their next weights. */
  predicate DoneUpTo<V>(w: World<V>, s: State<V>, s': State<V>, n: nat)
  {
    forall ub :: 0 <= ub < n && Ready(w, s, ub) ==> HasNext(s, s', ub)
  }

  predicate HasNext<V>(s: State<V>, s': State<V>, ub: nat) { HasWeights(s'.store, s.cursor + 1, ub) }

  lemma OneMoreDone<V>(w: World<V>, s: State<V>, s1: State<V>, s2: State<V>, n: nat)
    requires n > 0 && DoneUpTo(w, s, s1, n - 1) && Adds(s, s1) && Adds(s1, s2)
    requires Ready(w, s1, n - 1) ==> HasNext(s, s2, n - 1)
    ensures DoneUpTo(w, s, s2, n)
  {
    forall ub | 0 <= ub < n && Ready(w, s, ub) ensures HasNext(s, s2, ub) {
      assert ub < n - 1 ==> HasNext(s, s1, ub);
    }
  }

  /** The workers can reduce every ready block and apply its outer step. */
  lemma {:induction false} FinishBlocks<V>(w: World<V>, s: State<V>, n: nat) returns (steps: seq<Step<V>>)
    requires InFlight(w, s) && Settled(s) && n <= w.blocks
    ensures Allowed(w, s, steps)
    ensures var s' := After(w, s, steps); InFlight(w, s') && Adds(s, s') && DoneUpTo(w, s, s', n)
    decreases n
  {
    steps := [];
    if n > 0 {
      var before := FinishBlocks(w, s, n - 1);
      var s1 := After(w, s, before);
      var last := FinishBlock(w, s1, n - 1);
      var s2 := After(w, s1, last);
      Joined(w, s, before, last);
      AddsTwice(s, s1, s2);
      OneMoreDone(w, s, s1, s2, n);
      steps := before + last;
    }
  }

  // ------------------------------------------------------------------------
  // The ticks that mark and advance
  // ------------------------------------------------------------------------

  /** The tick that comes when the timeout is over, if there is one. */
  function LateTick<V>(w: World<V>, s: State<V>, id: WorkerId): Step<V>
  {
    var over := if s.cursor in s.started then s.started[s.cursor] + w.params.maxSec else s.clock;
    Ticks(if over > s.clock then over else s.clock, true, [id], seq(w.blocks, _ => []))
  }

  /** The block has its next weights or waits for a tick. */
  predicate DoneOrWaiting<V>(w: World<V>, s: State<V>, ub: nat)
  {
    HasWeights(s.store, s.cursor + 1, ub) || Waiting(w, s, ub)
  }

  predicate DoneOrReady<V>(w: World<V>, s: State<V>, ub: nat)
  {
    HasWeights(s.store, s.cursor + 1, ub) || Ready(w, s, ub)
  }

  lemma LateTickMarks<V>(w: World<V>, s: State<V>, id: WorkerId, s': State<V>, ub: nat)
    requires InFlight(w, s) && Waiting(w, s, ub) && ub < w.blocks
    requires Enabled(w, s, LateTick(w, s, id)) && s' == Apply(w, s, LateTick(w, s, id)) && s'.cursor == s.cursor
    ensures Ready(w, s', ub)
  {
    var step := LateTick(w, s, id);
    var elapsed := Elapsed(s.started, s.cursor, step.now);
    MarkersAfterBooking(w.params, s.store, s.book, s.cursor, elapsed, Deadline(step.now), w.blocks, ub);
    MarkedByTick(w, s, step, s', ub);
  }

  /** That tick moves the cursor on, or leaves every waiting block ready. */
  lemma LateTickReadies<V>(w: World<V>, s: State<V>, id: WorkerId, s': State<V>, ub: nat)
    requires InFlight(w, s) && DoneOrWaiting(w, s, ub) && ub < w.blocks && s'.store == s.store
    requires Enabled(w, s, LateTick(w, s, id)) && s' == Apply(w, s, LateTick(w, s, id)) && s'.cursor == s.cursor
    ensures DoneOrReady(w, s', ub)
  {
    if Waiting(w, s, ub) {
      LateTickMarks(w, s, id, s', ub);
    }
  }

  lemma AfterLateTick<V>(w: World<V>, s: State<V>, id: WorkerId, s': State<V>)
    requires InFlight(w, s) && Settled(s) && forall ub :: 0 <= ub < w.blocks ==> DoneOrWaiting(w, s, ub)
    requires Enabled(w, s, LateTick(w, s, id)) && s' == Apply(w, s, LateTick(w, s, id))
    ensures s'.cursor >= s.cursor
    ensures s'.cursor == s.cursor ==>
            && InFlight(w, s') && Settled(s')
            && forall ub :: 0 <= ub < w.blocks ==> DoneOrReady(w, s', ub)
  {
    var step := LateTick(w, s, id);
    var elapsed, n := TickParts(w, s, step.now, step.graceOver, step.workers, step.pin);
    if s'.cursor == s.cursor {
      StepKeepsInFlight(w, s, step, s');
      forall ub | 0 <= ub < w.blocks ensures DoneOrReady(w, s', ub) {
        LateTickReadies(w, s, id, s', ub);
      }
    }
  }

  lemma LastTick<V>(w: World<V>, s: State<V>, id: WorkerId) returns (steps: seq<Step<V>>)
    requires InFlight(w, s) && AllWeights(w, s.store, s.cursor + 1)
    ensures Finishes(w, s, steps)
  {
    var step := LateTick(w, s, id);
    First(w, s, step, []);
    steps := [step] + [];
  }

  lemma JoinedFinish<V>(w: World<V>, s: State<V>, a: seq<Step<V>>, b: seq<Step<V>>)
    requires Allowed(w, s, a) && Finishes(w, After(w, s, a), b) && After(w, s, a).cursor >= s.cursor
    ensures Finishes(w, s, a + b)
  {
    Joined(w, s, a, b);
  }

  lemma FromReady<V>(w: World<V>, s: State<V>, id: WorkerId) returns (steps: seq<Step<V>>)
    requires InFlight(w, s) && Settled(s) && forall ub :: 0 <= ub < w.blocks ==> DoneOrReady(w, s, ub)
    ensures Finishes(w, s, steps)
  {
    var blocks := FinishBlocks(w, s, w.blocks);
    var s' := After(w, s, blocks);
    AllDone(w, s, s');
    var last := LastTick(w, s', id);
    JoinedFinish(w, s, blocks, last);
    steps := blocks + last;
  }

  lemma AllDone<V>(w: World<V>, s: State<V>, s': State<V>)
    requires Adds(s, s') && DoneUpTo(w, s, s', w.blocks)
    requires forall ub :: 0 <= ub < w.blocks ==> DoneOrReady(w, s, ub)
    ensures AllWeights(w, s'.store, s'.cursor + 1)
  {
    var next := s.cursor + 1;
    forall ub | 0 <= ub < w.blocks ensures HasWeights(s'.store, next, ub) {
      assert DoneOrReady(w, s, ub);
      assert Ready(w, s, ub) ==> HasNext(s, s', ub);
    }
  }

  lemma FromWaiting<V>(w: World<V>, s: State<V>, id: WorkerId) returns (steps: seq<Step<V>>)
    requires InFlight(w, s) && Settled(s) && forall ub :: 0 <= ub < w.blocks ==> DoneOrWaiting(w, s, ub)
    ensures Finishes(w, s, steps)
  {
    var tick := LateTick(w, s, id);
    var s' := Apply(w, s, tick);
    AfterLateTick(w, s, id, s');
    First(w, s, tick, []);
    steps := [tick] + [];
    if s'.cursor == s.cursor {
      var rest := FromReady(w, s', id);
      JoinedFinish(w, s, [tick] + [], rest);
      steps := [tick] + [] + rest;
    }
  }

  lemma MoreDeltas<V>(w: World<V>, s: State<V>, s': State<V>, ub: nat)
    requires Adds(s, s') && Waiting(w, s, ub)
    ensures Waiting(w, s', ub)
  {
    SubsetSize(DeltasOf(s.store, s.cursor, ub), DeltasOf(s'.store, s.cursor, ub));
  }

  lemma FromUnderway<V>(w: World<V>, s: State<V>, id: WorkerId) returns (steps: seq<Step<V>>)
    requires InFlight(w, s) && Settled(s) && forall ub :: 0 <= ub < w.blocks ==> Underway(w, s, ub)
    ensures Finishes(w, s, steps)
  {
    var blocks := FinishBlocks(w, s, w.blocks);
    var s' := After(w, s, blocks);
    forall ub | 0 <= ub < w.blocks ensures DoneOrWaiting(w, s', ub) {
      assert Underway(w, s, ub);
      if Waiting(w, s, ub) {
        MoreDeltas(w, s, s', ub);
      } else if Ready(w, s, ub) {
        assert HasNext(s, s', ub);
      }
    }
    var rest := FromWaiting(w, s', id);
    JoinedFinish(w, s, blocks, rest);
    steps := blocks + rest;
  }

  lemma FromSettled<V>(w: World<V>, s: State<V>, id: WorkerId) returns (steps: seq<Step<V>>)
    requires InFlight(w, s) && Settled(s) && BlocksCan(w, s)
    ensures Finishes(w, s, steps)
  {
    var gather := Gather(w, s);
    var s' := After(w, s, gather);
    forall ub | 0 <= ub < w.blocks ensures Underway(w, s', ub) {
      assert BlockCan(w, s, ub) && GatheredFor(w, s, s', ub);
      GatheredUnderway(w, s, s', ub);
    }
    var rest := FromUnderway(w, s', id);
    JoinedFinish(w, s, gather, rest);
    steps := gather + rest;
  }

  lemma CanBeFinished<V>(w: World<V>, s: State<V>, id: WorkerId) returns (steps: seq<Step<V>>)
    requires InFlight(w, s) && BlocksCan(w, s)
    ensures Finishes(w, s, steps)
  {
    var land := LandAll(w, s);
    HandsDecide(w, s, After(w, s, land));
    var rest := FromSettled(w, After(w, s, land), id);
    JoinedFinish(w, s, land, rest);
    steps := land + rest;
  }

  // ------------------------------------------------------------------------
  // In every state of every run
  // ------------------------------------------------------------------------

  lemma {:induction false} RunDeltasAt<V>(w: World<V>, states: seq<State<V>>, steps: seq<Step<V>>, j: nat)
    requires ValidRun(w, states, steps) && j < |states|
    ensures DeltasFromInner(states[j])
  {
    if j > 0 {
      RunDeltasAt(w, states, steps, j - 1);
      assert StepAt(w, states, steps, j - 1);
      StepDeltas(w, states[j - 1], steps[j - 1], states[j]);
    }
  }

  lemma RunInFlight<V>(w: World<V>, states: seq<State<V>>, steps: seq<Step<V>>, j: nat)
    requires ValidRun(w, states, steps) && j < |states|
    requires states[j].cursor in states[j].emitted && !AtEnd(w, states[j].cursor)
    ensures InFlight(w, states[j])
  {
    RunSafeAt(w, states, steps, j);
    RunDeltasAt(w, states, steps, j);
  }

  /**
   In every state of every run, the round in flight can still be finished if and only if every block can: it
   has its next weights stored or being made; or it is marked and its reduce and outer step are in time; or it
   is not, and the deltas stored, being made or still to be begun in time reach the target, or the least with a
   timeout that can still come.
   */
  lemma CanFinishIff<V(!new)>(w: World<V>, states: seq<State<V>>, steps: seq<Step<V>>, j: nat, id: WorkerId)
    requires ValidRun(w, states, steps) && j < |states|
    requires states[j].cursor in states[j].emitted && !AtEnd(w, states[j].cursor)
    ensures CanFinish(w, states[j]) <==> BlocksCan(w, states[j])
  {
    var s := states[j];
    RunInFlight(w, states, steps, j);
    if BlocksCan(w, s) {
      var more := CanBeFinished(w, s, id);
    }
    if CanFinish(w, s) {
      var more :| Finishes(w, s, more);
      forall ub | 0 <= ub < w.blocks ensures BlockCan(w, s, ub) {
        FinishedCould(w, s, more, ub);
      }
    }
  }

  // ------------------------------------------------------------------------
  // What takes the possibility away
  // ------------------------------------------------------------------------

  /** No deadline of the round in flight lies between the two clocks. */
  ghost predicate NoDeadlinePasses<V>(s: State<V>, s': State<V>)
  {
    && (StillInTime(s) ==> RoundInTime(s, s.cursor, s'.clock))
    && forall ub {:trigger BlockInTime(s, s.cursor, ub, s.clock)} ::
         BlockInTime(s, s.cursor, ub, s.clock) ==> BlockInTime(s, s.cursor, ub, s'.clock)
  }

  /** If the step drops something of the round in flight, its job may be begun again. */
  ghost predicate DropsInTime<V>(s: State<V>, step: Step<V>)
  {
    step.Drops? ==>
      match step.artifact
      case Weights(next, ub) => next == s.cursor + 1 ==> BlockInTime(s, s.cursor, ub, s.clock)
      case Reduced(_, _) => true
      case a => a.round == s.cursor ==> StillInTime(s)
  }

  lemma HandKept<V>(w: World<V>, s: State<V>, step: Step<V>, s': State<V>, a: Artifact)
    requires Enabled(w, s, step) && s' == Apply(w, s, step) && OnHand(s, a) && step != Drops(a)
    ensures OnHand(s', a)
  {
    if step.Ticks? {
      var elapsed, n := TickParts(w, s, step.now, step.graceOver, step.workers, step.pin);
    }
  }

  lemma CutAfter<V>(w: World<V>, s: State<V>, step: Step<V>, s': State<V>, ub: nat, mb: nat)
    requires InFlight(w, s) && Enabled(w, s, step) && s' == Apply(w, s, step) && s'.cursor == s.cursor
    requires SameRound(s, s') && NoDeadlinePasses(s, s') && DropsInTime(s, step) && CutCan(w, s, ub, mb)
    ensures CutCan(w, s', ub, mb)
  {
    var cut := Cut(s.cursor, ub, mb);
    if OnHand(s, cut) && step != Drops(cut) {
      HandKept(w, s, step, s', cut);
    } else if step == Drops(cut) {
      assert ValueOk(w, s.store, s.book, cut, s.running[cut]);
    }
  }

  lemma DeltaAfter<V>(w: World<V>, s: State<V>, step: Step<V>, s': State<V>, a: Artifact)
    requires InFlight(w, s) && Enabled(w, s, step) && s' == Apply(w, s, step) && s'.cursor == s.cursor
    requires SameRound(s, s') && NoDeadlinePasses(s, s') && DropsInTime(s, step)
    requires a.Delta? && a.round == s.cursor && DeltaCan(w, s, a)
    ensures DeltaCan(w, s', a)
  {
    if OnHand(s, a) && step != Drops(a) {
      HandKept(w, s, step, s', a);
    } else if step == Drops(a) {
      assert ValueOk(w, s.store, s.book, a, s.running[a]);
    } else {
      CutAfter(w, s, step, s', a.ub, a.mb);
    }
  }

  lemma DeltasAfter<V>(w: World<V>, s: State<V>, step: Step<V>, s': State<V>, ub: nat)
    requires InFlight(w, s) && Enabled(w, s, step) && s' == Apply(w, s, step) && s'.cursor == s.cursor
    requires SameRound(s, s') && NoDeadlinePasses(s, s') && DropsInTime(s, step)
    ensures |DeltasCan(w, s, ub)| <= |DeltasCan(w, s', ub)|
  {
    forall a | a in DeltasCan(w, s, ub) ensures a in DeltasCan(w, s', ub) {
      assert InnerOf(s'.inner, s.cursor, ub) == InnerOf(s.inner, s.cursor, ub);
      DeltaAfter(w, s, step, s', a);
    }
    SubsetSize(DeltasCan(w, s, ub), DeltasCan(w, s', ub));
  }

  lemma WeightsMeanCut<V>(w: World<V>, s: State<V>, ub: nat)
    requires Safe(w, s) && w.extras && OnHand(s, Weights(s.cursor + 1, ub))
    ensures Cut(s.cursor, ub, 0) in s.store
  {
    var next := Weights(s.cursor + 1, ub);
    assert ValueOk(w, s.store, s.book, next, if next in s.store then s.store[next] else s.running[next]);
  }

  lemma OuterAfter<V>(w: World<V>, s: State<V>, step: Step<V>, s': State<V>, ub: nat)
    requires InFlight(w, s) && Enabled(w, s, step) && s' == Apply(w, s, step) && s'.cursor == s.cursor
    requires SameRound(s, s') && NoDeadlinePasses(s, s') && DropsInTime(s, step)
    requires OuterCan(w, s, ub) || OnHand(s, Weights(s.cursor + 1, ub))
    ensures OuterCan(w, s', ub)
  {
    if w.extras {
      if OnHand(s, Weights(s.cursor + 1, ub)) {
        WeightsMeanCut(w, s, ub);
      }
      CutAfter(w, s, step, s', ub, 0);
    }
  }

  lemma MarkedAfter<V>(w: World<V>, s: State<V>, step: Step<V>, s': State<V>, ub: nat)
    requires InFlight(w, s) && Enabled(w, s, step) && s' == Apply(w, s, step) && s'.cursor == s.cursor
    requires NoDeadlinePasses(s, s') && OuterCan(w, s', ub) && ub < w.blocks
    requires (s.cursor, ub) in s'.book.markers
    requires (s.cursor, ub) in s.book.markers ==> BlockInTime(s, s.cursor, ub, s.clock)
    ensures BlockCan(w, s', ub)
  {
    StepBook(w, s, step, s');
    if (s.cursor, ub) !in s.book.markers {
      MarkedByTick(w, s, step, s', ub);
    }
  }

  lemma UnmarkedAfter<V>(w: World<V>, s: State<V>, step: Step<V>, s': State<V>, ub: nat)
    requires InFlight(w, s) && Enabled(w, s, step) && s' == Apply(w, s, step) && s'.cursor == s.cursor
    requires SameRound(s, s') && NoDeadlinePasses(s, s') && DropsInTime(s, step) && OuterCan(w, s', ub)
    requires (s.cursor, ub) !in s'.book.markers && (s.cursor in s.started ==> s.cursor in s'.started)
    requires (s.cursor, ub) !in s.book.markers ==> Reaches(w, s, |DeltasCan(w, s, ub)|)
    ensures BlockCan(w, s', ub)
  {
    StepBook(w, s, step, s');
    DeltasAfter(w, s, step, s', ub);
  }

  lemma MarkerAfter<V>(w: World<V>, s: State<V>, step: Step<V>, s': State<V>, ub: nat)
    requires InFlight(w, s) && Enabled(w, s, step) && s' == Apply(w, s, step) && s'.cursor == s.cursor
    requires SameRound(s, s') && NoDeadlinePasses(s, s') && DropsInTime(s, step) && OuterCan(w, s', ub) && ub < w.blocks
    requires !step.Restarts? && (s.cursor in s.started ==> s.cursor in s'.started)
    requires (s.cursor, ub) in s.book.markers ==> BlockInTime(s, s.cursor, ub, s.clock)
    requires (s.cursor, ub) !in s.book.markers ==> Reaches(w, s, |DeltasCan(w, s, ub)|)
    ensures BlockCan(w, s', ub)
  {
    if (s.cursor, ub) in s'.book.markers {
      MarkedAfter(w, s, step, s', ub);
    } else {
      UnmarkedAfter(w, s, step, s', ub);
    }
  }

  lemma CanAfter<V>(w: World<V>, s: State<V>, step: Step<V>, s': State<V>, ub: nat)
    requires InFlight(w, s) && Enabled(w, s, step) && s' == Apply(w, s, step) && s'.cursor == s.cursor
    requires !step.Restarts? && NoDeadlinePasses(s, s') && DropsInTime(s, step)
    requires ub < w.blocks && BlockCan(w, s, ub)
    ensures BlockCan(w, s', ub)
  {
    var next := Weights(s.cursor + 1, ub);
    StepSameRound(w, s, step, s');
    if OnHand(s, next) && step != Drops(next) {
      HandKept(w, s, step, s', next);
    } else {
      OuterAfter(w, s, step, s', ub);
      if OnHand(s, next) {
        WeightsMeanMarker(w, s, s.cursor, ub);
      }
      MarkerAfter(w, s, step, s', ub);
    }
  }

  /**
   As long as the cursor stays, nothing keeps a round from being finished that could have been but a restart, a
   deadline that passes, or the loss of an execution whose deadline has passed.
   */
  lemma OnlyRestartsOrDeadlines<V>(w: World<V>, s: State<V>, step: Step<V>, s': State<V>)
    requires InFlight(w, s) && Enabled(w, s, step) && s' == Apply(w, s, step) && s'.cursor == s.cursor
    requires BlocksCan(w, s) && !step.Restarts? && NoDeadlinePasses(s, s') && DropsInTime(s, step)
    ensures BlocksCan(w, s')
  {
    forall ub | 0 <= ub < w.blocks ensures BlockCan(w, s', ub) {
      assert BlockCan(w, s, ub);
      CanAfter(w, s, step, s', ub);
    }
  }

  // ------------------------------------------------------------------------
  // In terms of the servers of the blocks
  // ------------------------------------------------------------------------

  lemma {:induction false} BlockIncluded(p: Params, round: nat, workers: seq<WorkerId>, pin: seq<seq<WorkerId>>,
                                         n: nat, ub: nat)
    requires n <= |pin| && workers != [] && ub < n
    ensures Planned(p, round, ub, workers, pin[ub]) <= InnerUpTo(p, round, workers, pin, n)
    decreases n
  {
    if ub < n - 1 {
      BlockIncluded(p, round, workers, pin, n - 1, ub);
    }
  }

  /** Nothing planned is taken back, and a round that comes to be emitted is planned with these workers. */
  ghost predicate Plans<V>(w: World<V>, s: State<V>, s': State<V>, workers: seq<WorkerId>, pin: seq<WorkerId>, r: nat,
                           ub: nat)
  {
    s.inner <= s'.inner && (Emits(s, s', r) ==> workers != [] && Planned(w.params, r, ub, workers, pin) <= s'.inner)
  }

  lemma EmitPlans<V>(w: World<V>, s: State<V>, round: nat, now: real, workers: seq<WorkerId>, pin: seq<seq<WorkerId>>,
                     r: nat, ub: nat)
    requires |pin| == w.blocks && workers != [] && ub < w.blocks
    ensures Plans(w, s, EmitRound(w, s, round, now, workers, pin), workers, pin[ub], r, ub)
  {
    BlockIncluded(w.params, round, workers, pin, w.blocks, ub);
  }

  lemma AdvancePlans<V>(w: World<V>, s: State<V>, now: real, workers: seq<WorkerId>, pin: seq<seq<WorkerId>>, r: nat,
                        ub: nat)
    requires |pin| == w.blocks && workers != [] && ub < w.blocks
    ensures Plans(w, s, Advance(w, s, now, workers, pin), workers, pin[ub], r, ub)
  {
    var s1 := s.(cursor := s.cursor + 1, completed := s.completed + [s.cursor]);
    EmitPlans(w, s1, s1.cursor, now, workers, pin, r, ub);
  }

  lemma TickPlans<V>(w: World<V>, s: State<V>, now: real, graceOver: bool, workers: seq<WorkerId>,
                     pin: seq<seq<WorkerId>>, r: nat, ub: nat)
    requires |pin| == w.blocks && ub < w.blocks
    ensures Plans(w, s, Tick(w, s, now, graceOver, workers, pin), workers, pin[ub], r, ub)
  {
    if AtEnd(w, s.cursor) || workers == [] || (s.cursor !in s.emitted && s.cursor == 0 && !graceOver) {
    } else {
      var s1 := if s.cursor !in s.emitted then EmitRound(w, s, s.cursor, now, workers, pin) else s;
      EmitPlans(w, s, s.cursor, now, workers, pin, r, ub);
      var s2 := Reduces(w, s1, s1.cursor, now);
      assert s2.inner == s1.inner && s2.emitted == s1.emitted;
      AdvancePlans(w, s2, now, workers, pin, r, ub);
    }
  }

  /** The tick that emits a round plans all its inner steps. */
  lemma EmissionPlans<V>(w: World<V>, s: State<V>, step: Step<V>, r: nat, ub: nat, s': State<V>)
    requires Enabled(w, s, step) && ub < w.blocks && s' == Apply(w, s, step)
    ensures s.inner <= s'.inner
    ensures Emits(s, s', r) ==>
            step.Ticks? && step.workers != [] && Planned(w.params, r, ub, step.workers, step.pin[ub]) <= s'.inner
  {
    if step.Ticks? {
      TickPlans(w, s, step.now, step.graceOver, step.workers, step.pin, r, ub);
    }
  }

  lemma {:induction false} PlanStays<V>(w: World<V>, states: seq<State<V>>, steps: seq<Step<V>>, i: nat, j: nat,
                                        r: nat, ub: nat, servers: seq<WorkerId>)
    requires EmittedAt(w, states, steps, i, r, ub, servers) && i < j < |states|
    ensures servers != [] && PlanOf(w.params, r, ub, servers) <= states[j].inner
    decreases j
  {
    assert StepAt(w, states, steps, j - 1);
    EmissionPlans(w, states[j - 1], steps[j - 1], r, ub, states[j]);
    if j > i + 1 {
      PlanStays(w, states, steps, i, j - 1, r, ub, servers);
    }
  }

  /** From its emission on, a block emitted to P different servers has exactly M * min(R, P) inner steps. */
  lemma PlannedCount<V>(w: World<V>, states: seq<State<V>>, steps: seq<Step<V>>, i: nat, j: nat, r: nat, ub: nat,
                        servers: seq<WorkerId>)
    requires EmittedAt(w, states, steps, i, r, ub, servers) && i < j < |states| && Distinct(servers)
    ensures |InnerOf(states[j].inner, r, ub)| == w.params.mbs * Min(w.params.replicas, |servers|)
  {
    PlanHolds(w, states, steps, i, j, r, ub, servers);
    PlanStays(w, states, steps, i, j, r, ub, servers);
    var keys := DeltaKeys(servers, w.params.replicas, w.params.mbs);
    assert InnerOf(states[j].inner, r, ub) == PlanOf(w.params, r, ub, servers);
    BlockDeltasCount(r, ub, keys);
    DeltasCounted(servers, w.params.replicas, w.params.mbs);
  }

  /** No job of the round in flight that is still needed has expired. */
  ghost predicate NoneExpired<V>(w: World<V>, s: State<V>)
  {
    && StillInTime(s)
    && forall ub :: 0 <= ub < w.blocks && (s.cursor, ub) in s.book.markers ==>
         OnHand(s, Weights(s.cursor + 1, ub)) || BlockInTime(s, s.cursor, ub, s.clock)
  }

  /** The block has its reduce, or servers enough for the target, or for the least with a timeout to come. */
  predicate ServedEnough<V>(w: World<V>, s: State<V>, ub: nat, servers: seq<WorkerId>)
  {
    var each := Min(w.params.replicas, |servers|);
    || (s.cursor, ub) in s.book.markers
    || each >= TargetEach(w.params)
    || (each >= LeastEach(w.params) && TimeoutLeft(w, s))
  }

  /** The blocks of the round were emitted at step `i` to these servers, no block to one twice. */
  ghost predicate EmittedTo<V>(w: World<V>, states: seq<State<V>>, steps: seq<Step<V>>, i: nat, r: nat,
                               servers: seq<seq<WorkerId>>)
  {
    |servers| == w.blocks &&
    forall ub :: 0 <= ub < |servers| ==> EmittedAt(w, states, steps, i, r, ub, servers[ub]) && Distinct(servers[ub])
  }

  lemma PlannedMbs(p: Params, r: nat, ub: nat, servers: seq<WorkerId>, a: Artifact)
    requires servers != [] && a in PlanOf(p, r, ub, servers)
    ensures a.Delta? && a.mb < p.mbs
  {
    var k :| k in DeltaKeys(servers, p.replicas, p.mbs) && a == Delta(r, ub, k.0, k.1);
    EarlierKeys(servers, p.replicas, p.mbs, k);
  }

  /** While the round is in time, every planned delta can be had. */
  lemma AllCan<V>(w: World<V>, states: seq<State<V>>, steps: seq<Step<V>>, i: nat, j: nat, ub: nat,
                  servers: seq<WorkerId>)
    requires i < j < |states| && EmittedAt(w, states, steps, i, states[j].cursor, ub, servers)
    requires StillInTime(states[j])
    ensures DeltasCan(w, states[j], ub) == InnerOf(states[j].inner, states[j].cursor, ub)
  {
    var s := states[j];
    PlanHolds(w, states, steps, i, j, s.cursor, ub, servers);
    forall a | a in InnerOf(s.inner, s.cursor, ub) ensures a in DeltasCan(w, s, ub) {
      PlannedMbs(w.params, s.cursor, ub, servers, a);
    }
  }

  lemma ServersDecide<V>(w: World<V>, states: seq<State<V>>, steps: seq<Step<V>>, i: nat, j: nat, ub: nat,
                         servers: seq<WorkerId>)
    requires i < j < |states| && EmittedAt(w, states, steps, i, states[j].cursor, ub, servers) && Distinct(servers)
    requires w.params.mbs >= 1 && Safe(w, states[j]) && NoneExpired(w, states[j])
    ensures BlockCan(w, states[j], ub) <==> ServedEnough(w, states[j], ub, servers)
  {
    var s, each := states[j], Min(w.params.replicas, |servers|);
    AllCan(w, states, steps, i, j, ub, servers);
    PlannedCount(w, states, steps, i, j, s.cursor, ub, servers);
    Multiples(w.params.mbs, each, TargetEach(w.params));
    Multiples(w.params.mbs, each, LeastEach(w.params));
    if OnHand(s, Weights(s.cursor + 1, ub)) {
      WeightsMeanMarker(w, s, s.cursor, ub);
    }
  }

  /**
   While none of its jobs has expired, a round emitted to these servers can be finished if and only if every
   block still without its reduce has min(R, P) servers reaching the target, or reaching the least with a
   timeout that can still come.
   */
  lemma ServersFinishIff<V(!new)>(w: World<V>, states: seq<State<V>>, steps: seq<Step<V>>, i: nat, j: nat,
                                  servers: seq<seq<WorkerId>>, id: WorkerId)
    requires ValidRun(w, states, steps) && i < j < |states| && w.params.mbs >= 1 && !AtEnd(w, states[j].cursor)
    requires EmittedTo(w, states, steps, i, states[j].cursor, servers) && NoneExpired(w, states[j])
    ensures CanFinish(w, states[j]) <==>
            forall ub :: 0 <= ub < |servers| ==> ServedEnough(w, states[j], ub, servers[ub])
  {
    CanFinishIff(w, states, steps, j, id);
    RunSafeAt(w, states, steps, j);
    forall ub | 0 <= ub < |servers|
      ensures BlockCan(w, states[j], ub) <==> ServedEnough(w, states[j], ub, servers[ub])
    {
      ServersDecide(w, states, steps, i, j, ub, servers[ub]);
    }
  }

  /** With coverage, and a target of at most all replicas, it can be finished while none has expired. */
  lemma CoverageFinishes<V(!new)>(w: World<V>, states: seq<State<V>>, steps: seq<Step<V>>, i: nat, j: nat,
                                  servers: seq<seq<WorkerId>>, id: WorkerId)
    requires ValidRun(w, states, steps) && i < j < |states| && w.params.mbs >= 1 && !AtEnd(w, states[j].cursor)
    requires EmittedTo(w, states, steps, i, states[j].cursor, servers) && NoneExpired(w, states[j])
    requires steps[i].Ticks? && CoverageOk(steps[i].pin, w.params.replicas) && TargetEach(w.params) <= w.params.replicas
    ensures CanFinish(w, states[j])
  {
    forall ub | 0 <= ub < |servers| ensures ServedEnough(w, states[j], ub, servers[ub]) {
      assert EmittedAt(w, states, steps, i, states[j].cursor, ub, servers[ub]);
      assert |steps[i].pin[ub]| >= AtLeast(1, w.params.replicas);
    }
    ServersFinishIff(w, states, steps, i, j, servers, id);
  }

  // ------------------------------------------------------------------------
  // Runs without a restart that end stranded
  // ------------------------------------------------------------------------

  lemma {:induction false} ExtendBy<V>(w: World<V>, states: seq<State<V>>, steps: seq<Step<V>>, more: seq<Step<V>>)
    returns (states': seq<State<V>>)
    requires ValidRun(w, states, steps) && Allowed(w, states[|steps|], more)
    ensures ValidRun(w, states', steps + more) && states <= states'
    ensures states'[|steps + more|] == After(w, states[|steps|], more)
    decreases |more|
  {
    states' := states;
    if more == [] {
      assert steps + more == steps;
    } else {
      var s := Apply(w, states[|steps|], more[0]);
      ExtendRun(w, states, steps, more[0]);
      states' := ExtendBy(w, states + [s], steps + [more[0]], more[1..]);
      assert steps + more == steps + [more[0]] + more[1..];
    }
  }

  /** The run is past its first tick, nothing is made yet, and no block is marked. */
  ghost predicate JustEmitted<V>(w: World<V>, s: State<V>, now: real)
  {
    && s.cursor == 0 && s.emitted == map[0 := Deadline(now)] && s.started == map[0 := now] && s.clock == now
    && s.store == InitialStore(w) && s.running == map[] && s.book.markers == {}
  }

  /** A deployment whose quorum takes a delta, and what its first tick sees. */
  ghost predicate Deployed<V>(w: World<V>, workers: seq<WorkerId>, pin: seq<seq<WorkerId>>)
  {
    && |pin| == w.blocks >= 1 && workers != [] && !AtEnd(w, 0)
    && Target(w.params) > 0 && Least(w.params) > 0
  }

  lemma {:induction false} NothingBooked<V>(p: Params, store: map<Artifact, V>, b: Book, round: nat, elapsed: real,
                                            due: int, n: nat)
    requires Target(p) > 0 && Least(p) > 0 && forall a :: a in store ==> !a.Delta?
    ensures BookUpTo(p, store, b, round, elapsed, due, n) == b
    decreases n
  {
    if n > 0 {
      NothingBooked(p, store, b, round, elapsed, due, n - 1);
      assert DeltasOf(store, round, n - 1) == {};
    }
  }

  lemma FirstTickEmits<V>(w: World<V>, workers: seq<WorkerId>, pin: seq<seq<WorkerId>>, now: real)
    returns (states: seq<State<V>>, steps: seq<Step<V>>)
    requires Deployed(w, workers, pin)
    ensures ValidRun(w, states, steps) && steps == [Ticks(now, true, workers, pin)]
    ensures JustEmitted(w, states[1], now) && Emits(states[0], states[1], 0)
  {
    var s0, tick := Start(w, now), Ticks(now, true, workers, pin);
    var s1 := EmitRound(w, s0, 0, now, workers, pin);
    NothingBooked(w.params, s1.store, s1.book, 0, Elapsed(s1.started, 0, now), Deadline(now), w.blocks);
    assert Reduces(w, s1, 0, now) == s1;
    assert !HasWeights(s1.store, 1, 0);
    assert Apply(w, s0, tick) == s1;
    ExtendRun(w, [s0], [], tick);
    states, steps := [s0] + [s1], [] + [tick];
  }

  /** Time passes while no worker is up. */
  lemma WaitUntil<V>(w: World<V>, states: seq<State<V>>, steps: seq<Step<V>>, pin: seq<seq<WorkerId>>, late: real)
    returns (states': seq<State<V>>, steps': seq<Step<V>>)
    requires ValidRun(w, states, steps) && |pin| == w.blocks && states[|steps|].clock <= late
    ensures ValidRun(w, states', steps') && steps' == steps + [Ticks(late, true, [], pin)]
    ensures states <= states' && states'[|steps'|] == states[|steps|].(clock := late)
  {
    var tick := Ticks(late, true, [], pin);
    ExtendRun(w, states, steps, tick);
    states', steps' := states + [states[|steps|].(clock := late)], steps + [tick];
  }

  lemma Overdue(now: real, late: real)
    requires now >= 0.0 && late >= now + JOB_SECONDS as real + 1.0
    ensures !InTime(Deadline(now), late)
  {
  }

  /** Nothing was begun in time: no block can be finished. */
  lemma NothingBegunInTime<V>(w: World<V>, s: State<V>, ub: nat)
    requires s.cursor == 0 && s.store == InitialStore(w) && s.running == map[] && s.book.markers == {}
    requires !StillInTime(s) && Target(w.params) > 0 && Least(w.params) > 0
    ensures !BlockCan(w, s, ub)
  {
    assert DeltasCan(w, s, ub) == {};
  }

  /**
   With any coverage and no restart: a round whose workers are away until 601 seconds after its emission is
   stranded. Two ticks get there.
   */
  lemma DeadlineCanStrand<V(!new)>(w: World<V>, workers: seq<WorkerId>, pin: seq<seq<WorkerId>>, now: real)
    returns (states: seq<State<V>>, steps: seq<Step<V>>)
    requires Deployed(w, workers, pin) && now >= 0.0
    ensures ValidRun(w, states, steps) && |steps| == 2 && NoRestart(steps)
    ensures steps[0] == Ticks(now, true, workers, pin) && Emits(states[0], states[1], 0)
    ensures states[2].cursor == 0 && !CanFinish(w, states[2])
  {
    var late := now + JOB_SECONDS as real + 1.0;
    states, steps := FirstTickEmits(w, workers, pin, now);
    states, steps := WaitUntil(w, states, steps, pin, late);
    Overdue(now, late);
    NothingBegunInTime(w, states[2], 0);
    CanFinishIff(w, states, steps, 2, workers[0]);
  }

  /** Every block can still be finished right after an emission with coverage. */
  lemma CoveredAtFirst<V>(w: World<V>, states: seq<State<V>>, steps: seq<Step<V>>, workers: seq<WorkerId>,
                          pin: seq<seq<WorkerId>>, now: real, ub: nat)
    requires Deployed(w, workers, pin) && ValidRun(w, states, steps) && steps == [Ticks(now, true, workers, pin)]
    requires JustEmitted(w, states[1], now) && Emits(states[0], states[1], 0) && ub < w.blocks
    requires CoverageOk(pin, w.params.replicas) && Distinct(pin[ub]) && TargetEach(w.params) <= w.params.replicas
    requires w.params.mbs >= 1
    ensures BlockCan(w, states[1], ub)
  {
    InTimeAtFirst(now);
    RunSafeAt(w, states, steps, 1);
    assert |pin[ub]| >= AtLeast(1, w.params.replicas);
    ServersDecide(w, states, steps, 0, 1, ub, pin[ub]);
  }

  /** All deltas are there, and every block waits for a tick. */
  ghost predicate AllWaiting<V>(w: World<V>, s: State<V>)
  {
    && InFlight(w, s) && !OnHand(s, Weights(s.cursor + 1, 0)) && !Complete(w, s, s.cursor)
    && forall ub :: 0 <= ub < w.blocks ==> Waiting(w, s, ub)
  }

  lemma WaitingAfterGather<V>(w: World<V>, s: State<V>, s': State<V>)
    requires InFlight(w, s) && Settled(s) && Adds(s, s') && InFlight(w, s') && Gathered(w, s, s')
    requires BlocksCan(w, s) && s.book.markers == {} && w.blocks >= 1
    ensures AllWaiting(w, s')
  {
    NoMarkerNoWeights(w, s', s.cursor, 0);
    forall ub | 0 <= ub < w.blocks ensures Waiting(w, s', ub) {
      assert GatheredFor(w, s, s', ub) && BlockCan(w, s, ub);
      GatheredUnderway(w, s, s', ub);
      NoMarkerNoWeights(w, s', s.cursor, ub);
    }
  }

  /** The late tick marks them all. */
  lemma MarkedLate<V>(w: World<V>, s: State<V>, id: WorkerId, s': State<V>)
    requires AllWaiting(w, s) && w.blocks >= 1
    requires Enabled(w, s, LateTick(w, s, id)) && s' == Apply(w, s, LateTick(w, s, id))
    ensures AllMarked(w, s') && s'.cursor == s.cursor && s.clock <= s'.clock
  {
    var step := LateTick(w, s, id);
    var elapsed, n := TickParts(w, s, step.now, step.graceOver, step.workers, step.pin);
    StepKeepsInFlight(w, s, step, s');
    forall ub | 0 <= ub < w.blocks ensures (s.cursor, ub) in s'.book.markers {
      assert Waiting(w, s, ub);
      LateTickMarks(w, s, id, s', ub);
    }
    assert Waiting(w, s, 0);
    MarkedByTick(w, s, step, s', 0);
  }

  /** Every block was marked just now, and block 0 has no next weights. */
  ghost predicate AllMarked<V>(w: World<V>, s: State<V>)
  {
    && s.cursor in s.emitted && !OnHand(s, Weights(s.cursor + 1, 0))
    && (forall ub :: 0 <= ub < w.blocks ==> (s.cursor, ub) in s.book.markers)
    && (s.cursor, 0) in s.book.reduces && s.book.reduces[(s.cursor, 0)].deadline == Deadline(s.clock)
  }

  /** Coverage by different workers, and a target that it can reach. */
  ghost predicate Covered<V>(w: World<V>, pin: seq<seq<WorkerId>>)
  {
    && |pin| == w.blocks && CoverageOk(pin, w.params.replicas) && TargetEach(w.params) <= w.params.replicas
    && w.params.mbs >= 1 && forall ub :: 0 <= ub < w.blocks ==> Distinct(pin[ub])
  }

  /** Forward jobs and inner steps are done. */
  lemma WaitingReached<V>(w: World<V>, workers: seq<WorkerId>, pin: seq<seq<WorkerId>>, now: real)
    returns (states: seq<State<V>>, steps: seq<Step<V>>)
    requires Deployed(w, workers, pin) && Covered(w, pin)
    ensures ValidRun(w, states, steps) && NoRestart(steps)
    ensures var s := states[|steps|]; AllWaiting(w, s) && s.cursor == 0 && s.clock == now
  {
    states, steps := FirstTickEmits(w, workers, pin, now);
    var s1 := states[1];
    RunInFlight(w, states, steps, 1);
    forall ub | 0 <= ub < w.blocks ensures BlockCan(w, s1, ub) {
      CoveredAtFirst(w, states, steps, workers, pin, now, ub);
    }
    var gather := Gather(w, s1);
    WaitingAfterGather(w, s1, After(w, s1, gather));
    states := ExtendBy(w, states, steps, gather);
    steps := steps + gather;
  }

  /** And the tick that marks the blocks has come. */
  lemma MarkedReached<V>(w: World<V>, workers: seq<WorkerId>, pin: seq<seq<WorkerId>>, now: real)
    returns (states: seq<State<V>>, steps: seq<Step<V>>)
    requires Deployed(w, workers, pin) && Covered(w, pin)
    ensures ValidRun(w, states, steps) && NoRestart(steps)
    ensures var s := states[|steps|]; AllMarked(w, s) && s.cursor == 0 && now <= s.clock
  {
    states, steps := WaitingReached(w, workers, pin, now);
    var s := states[|steps|];
    var tick := LateTick(w, s, workers[0]);
    MarkedLate(w, s, workers[0], Apply(w, s, tick));
    ExtendRun(w, states, steps, tick);
    states, steps := states + [Apply(w, s, tick)], steps + [tick];
  }

  lemma OverdueReduce<V>(w: World<V>, s: State<V>, ub: nat)
    requires (s.cursor, ub) in s.book.markers && !BlockInTime(s, s.cursor, ub, s.clock)
    requires !OnHand(s, Weights(s.cursor + 1, ub))
    ensures !BlockCan(w, s, ub)
  {
  }

  /**
   With coverage and no restart: a round with all its deltas, all its blocks marked, and a worker that is away
   until 601 seconds after the marking tick, is stranded too.
   */
  lemma ReduceCanStrand<V(!new)>(w: World<V>, workers: seq<WorkerId>, pin: seq<seq<WorkerId>>, now: real)
    returns (states: seq<State<V>>, steps: seq<Step<V>>)
    requires Deployed(w, workers, pin) && Covered(w, pin) && now >= 0.0
    ensures ValidRun(w, states, steps) && NoRestart(steps) && states[|steps|].cursor == 0
    ensures forall ub :: 0 <= ub < w.blocks ==> (0, ub) in states[|steps|].book.markers
    ensures !CanFinish(w, states[|steps|])
  {
    states, steps := MarkedReached(w, workers, pin, now);
    var s := states[|steps|];
    var late := s.clock + JOB_SECONDS as real + 1.0;
    states, steps := WaitUntil(w, states, steps, pin, late);
    Overdue(s.clock, late);
    OverdueReduce(w, states[|steps|], 0);
    CanFinishIff(w, states, steps, |steps|, workers[0]);
  }
}
