/**
 The synchronous round protocol: the forward pass, inner steps, a quorum of deltas, one reduce and one outer
 step per block, and the advance. Every job has a deadline, after which no worker begins it, and no job is
 ever written twice.
 */
module SyncRounds {
  import opened Common
  import opened PinTable
  import opened Quorum

  datatype Artifact =
    | Weights(round: nat, ub: nat)
    | Cut(round: nat, ub: nat, mb: nat)
    | Delta(round: nat, ub: nat, mb: nat, worker: WorkerId)
    | Reduced(round: nat, ub: nat)

  /**
   The manifest of a reduce: the deltas it reads, the number its graph is built for, and the deadline, which is
   also that of the outer step.
   */
  datatype Manifest = Manifest(inputs: set<Artifact>, arity: nat, deadline: int)

  /** The emission of a reduce, as it was decided. */
  datatype Emission = Emission(round: nat, ub: nat, manifest: Manifest, elapsed: real)

  /**
   With `extras` the forward pass makes further tensors, and the outer step of a block reads what it made of
   microbatch 0 at the block's cut.
   */
  datatype World<!V> = World(
    blocks: nat, params: Params, extras: bool, maxRounds: Option<nat>, init: nat -> V,
    reduce: (nat, map<Artifact, V>) -> V, outer: (V, V) -> V)

  /** What has been emitted for the blocks of the rounds: reduces, outer steps, markers, and the log of emissions. */
  datatype Book = Book(reduces: map<(nat, nat), Manifest>, outers: set<(nat, nat)>, markers: set<(nat, nat)>,
                       log: seq<Emission>)

  /**
   `running` is what workers have begun and not yet stored. `emitted` has the deadline of a round's forward and
   inner jobs. `clock` is the time of the latest tick or begin: it never runs back.
   */
  datatype State<V> = State(
    store: map<Artifact, V>, running: map<Artifact, V>, emitted: map<nat, int>, inner: set<Artifact>, book: Book,
    cursor: nat, completed: seq<nat>, started: map<nat, real>, clock: real)

  const JOB_SECONDS := 600

  /** A time cut down to whole seconds, towards zero. */
  function Seconds(now: real): int { if now >= 0.0 then now.Floor else -(-now).Floor }

  function Deadline(now: real): int { Seconds(now) + JOB_SECONDS }

  /** A worker begins a job up to its deadline; zero stands for none. */
  predicate InTime(deadline: int, now: real) { deadline == 0 || now <= deadline as real }

  function InitialStore<V>(w: World<V>): map<Artifact, V>
  {
    map a | a in InitialWeights(w.blocks) :: w.init(a.ub)
  }

  function InitialWeights(n: nat): (s: set<Artifact>)
    ensures forall a :: a in s <==> a.Weights? && a.round == 0 && a.ub < n
  {
    if n == 0 then {} else InitialWeights(n - 1) + {Weights(0, n - 1)}
  }

  function Start<V>(w: World<V>, clock: real): State<V>
  {
    State(InitialStore(w), map[], map[], {}, Book(map[], {}, {}, []), 0, [], map[], clock)
  }

  // ------------------------------------------------------------------------
  // The orchestrator's tick
  // ------------------------------------------------------------------------

  function DeltasOf<V>(store: map<Artifact, V>, round: nat, ub: nat): set<Artifact>
  {
    set a | a in store && a.Delta? && a.round == round && a.ub == ub
  }

  /** Without a recorded start no time has passed. */
  function Elapsed(started: map<nat, real>, round: nat, now: real): real
  {
    now - (if round in started then started[round] else now)
  }

  /**
   One block: nothing if its marker exists or its quorum is not met, else a reduce and an outer step over all
   the deltas there are.
   */
  function BookOne<V>(p: Params, store: map<Artifact, V>, b: Book, round: nat, ub: nat, elapsed: real, due: int): Book
  {
    var deltas := DeltasOf(store, round, ub);
    if (round, ub) in b.markers || !QuorumMet(p, |deltas|, elapsed) then b
    else
      var m := Manifest(deltas, |deltas|, due);
      Book(b.reduces[(round, ub) := m], b.outers + {(round, ub)}, b.markers + {(round, ub)},
           b.log + [Emission(round, ub, m, elapsed)])
  }

  function BookUpTo<V>(p: Params, store: map<Artifact, V>, b: Book, round: nat, elapsed: real, due: int, n: nat): Book
  {
    if n == 0 then b
    else BookOne(p, store, BookUpTo(p, store, b, round, elapsed, due, n - 1), round, n - 1, elapsed, due)
  }

  function Reduces<V>(w: World<V>, s: State<V>, round: nat, now: real): State<V>
  {
    s.(book := BookUpTo(w.params, s.store, s.book, round, Elapsed(s.started, round, now), Deadline(now), w.blocks))
  }

  predicate HasWeights<V>(store: map<Artifact, V>, round: nat, ub: nat) { Weights(round, ub) in store }

  predicate AllWeights<V>(w: World<V>, store: map<Artifact, V>, round: nat)
  {
    forall ub :: 0 <= ub < w.blocks ==> HasWeights(store, round, ub)
  }

  predicate Complete<V>(w: World<V>, s: State<V>, round: nat) { AllWeights(w, s.store, round + 1) }

  /** The deltas that the inner steps of one block are to make. */
  function BlockDeltas(round: nat, ub: nat, keys: set<Key>): set<Artifact>
  {
    set k | k in keys :: Delta(round, ub, k.0, k.1)
  }

  function InnerUpTo(p: Params, round: nat, workers: seq<WorkerId>, pin: seq<seq<WorkerId>>, n: nat): set<Artifact>
    requires n <= |pin| && workers != []
  {
    if n == 0 then {}
    else
      var keys := DeltaKeys(Servers(pin[n - 1], workers), p.replicas, p.mbs);
      InnerUpTo(p, round, workers, pin, n - 1) + BlockDeltas(round, n - 1, keys)
  }

  function EmitRound<V>(w: World<V>, s: State<V>, round: nat, now: real, workers: seq<WorkerId>,
                        pin: seq<seq<WorkerId>>): State<V>
    requires |pin| == w.blocks && workers != []
  {
    s.(emitted := s.emitted[round := Deadline(now)],
       inner := s.inner + InnerUpTo(w.params, round, workers, pin, w.blocks),
       started := s.started[round := now])
  }

  predicate AtEnd<V>(w: World<V>, cursor: nat) { w.maxRounds.Some? && cursor >= w.maxRounds.value }

  function Advance<V>(w: World<V>, s: State<V>, now: real, workers: seq<WorkerId>, pin: seq<seq<WorkerId>>): State<V>
    requires |pin| == w.blocks && workers != []
  {
    if !Complete(w, s, s.cursor) then s
    else
      var s1 := s.(cursor := s.cursor + 1, completed := s.completed + [s.cursor]);
      if !AtEnd(w, s1.cursor) && s1.cursor !in s1.emitted && CoverageOk(pin, w.params.replicas)
      then EmitRound(w, s1, s1.cursor, now, workers, pin) else s1
  }

  function Tick<V>(w: World<V>, s: State<V>, now: real, graceOver: bool, workers: seq<WorkerId>,
                   pin: seq<seq<WorkerId>>): State<V>
    requires |pin| == w.blocks
  {
    if AtEnd(w, s.cursor) || workers == [] then s
    else if s.cursor !in s.emitted && s.cursor == 0 && !graceOver then s
    else
      var s1 := if s.cursor !in s.emitted then EmitRound(w, s, s.cursor, now, workers, pin) else s;
      Advance(w, Reduces(w, s1, s1.cursor, now), now, workers, pin)
  }

  class SyncOrchestrator<V> {
    const w: World<V>
    var s: State<V>

    constructor (w: World<V>, clock: real)
      ensures this.w == w && s == Start(w, clock)
    {
      this.w := w;
      s := Start(w, clock);
    }

    method MaybeEmitReduces(round: nat, now: real)
      modifies this`s
      ensures s == Reduces(w, old(s), round, now)
    {
      var elapsed, due := Elapsed(s.started, round, now), Deadline(now);
      var b := s.book;
      for ub := 0 to w.blocks
        invariant s == old(s) && b == BookUpTo(w.params, s.store, s.book, round, elapsed, due, ub)
      {
        if (round, ub) !in b.markers {
          var deltas := DeltasOf(s.store, round, ub);
          if QuorumMet(w.params, |deltas|, elapsed) {
            var m := Manifest(deltas, |deltas|, due);
            b := b.(reduces := b.reduces[(round, ub) := m], markers := b.markers + {(round, ub)});
            b := b.(outers := b.outers + {(round, ub)}, log := b.log + [Emission(round, ub, m, elapsed)]);
          }
        }
      }
      s := s.(book := b);
    }

    method EmitInitialRound(round: nat, now: real, workers: seq<WorkerId>, pin: seq<seq<WorkerId>>)
      requires |pin| == w.blocks && workers != []
      modifies this`s
      ensures s == EmitRound(w, old(s), round, now, workers, pin)
    {
      var inner: set<Artifact> := {};
      for ub := 0 to w.blocks
        invariant inner == InnerUpTo(w.params, round, workers, pin, ub) && s == old(s)
      {
        var keys := EmitInner(Servers(pin[ub], workers), w.params.replicas, w.params.mbs);
        inner := inner + BlockDeltas(round, ub, keys);
      }
      s := s.(emitted := s.emitted[round := Deadline(now)], inner := s.inner + inner,
              started := s.started[round := now]);
    }

    method RoundComplete(round: nat) returns (done: bool)
      ensures done <==> Complete(w, s, round)
    {
      var next := round + 1;
      for ub := 0 to w.blocks
        invariant forall v :: 0 <= v < ub ==> HasWeights(s.store, next, v)
      {
        if !HasWeights(s.store, next, ub) {
          return false;
        }
      }
      return true;
    }

    method MaybeAdvance(now: real, workers: seq<WorkerId>, pin: seq<seq<WorkerId>>)
      requires |pin| == w.blocks && workers != []
      modifies this`s
      ensures s == Advance(w, old(s), now, workers, pin)
    {
      var round := s.cursor;
      var done := RoundComplete(round);
      if done {
        s := s.(cursor := round + 1, completed := s.completed + [round]);
        if !AtEnd(w, s.cursor) && s.cursor !in s.emitted && CoverageOk(pin, w.params.replicas) {
          EmitInitialRound(s.cursor, now, workers, pin);
        }
      }
    }

    method RunTick(now: real, graceOver: bool, workers: seq<WorkerId>, pin: seq<seq<WorkerId>>)
      requires |pin| == w.blocks
      modifies this`s
      ensures s == Tick(w, old(s), now, graceOver, workers, pin)
    {
      if AtEnd(w, s.cursor) || workers == [] {
        return;
      }
      var round := s.cursor;
      if round !in s.emitted {
        if round == 0 && !graceOver {
          return;
        }
        EmitInitialRound(round, now, workers, pin);
      }
      MaybeEmitReduces(round, now);
      MaybeAdvance(now, workers, pin);
    }
  }

  // ------------------------------------------------------------------------
  // Runs
  // ------------------------------------------------------------------------

  /**
   The orchestrator ticks or restarts. A worker begins to make an artifact, which later lands in the bucket or is
   dropped, when the execution fails or the worker is lost.
   */
  datatype Step<V> =
    | Ticks(now: real, graceOver: bool, workers: seq<WorkerId>, pin: seq<seq<WorkerId>>)
    | Restarts
    | Begins(artifact: Artifact, value: V, now: real)
    | Lands(artifact: Artifact)
    | Drops(artifact: Artifact)

  predicate InputsThere<V>(store: map<Artifact, V>, inputs: set<Artifact>) { forall a :: a in inputs ==> a in store }

  predicate RoundInTime<V>(s: State<V>, round: nat, now: real) { round in s.emitted && InTime(s.emitted[round], now) }

  predicate BlockInTime<V>(s: State<V>, round: nat, ub: nat, now: real)
  {
    (round, ub) in s.book.reduces && InTime(s.book.reduces[(round, ub)].deadline, now)
  }

  /** The job that makes the artifact was emitted, its deadline has not passed, and its inputs are there. */
  predicate CanMake<V>(w: World<V>, s: State<V>, a: Artifact, now: real)
  {
    match a
    case Cut(r, ub, mb) => RoundInTime(s, r, now) && ub < w.blocks && mb < w.params.mbs && AllWeights(w, s.store, r)
    case Delta(r, ub, mb, _) =>
      RoundInTime(s, r, now) && a in s.inner && Weights(r, ub) in s.store && Cut(r, ub, mb) in s.store
    case Reduced(r, ub) => BlockInTime(s, r, ub, now) && InputsThere(s.store, s.book.reduces[(r, ub)].inputs)
    case Weights(next, ub) =>
      && next > 0 && BlockInTime(s, next - 1, ub, now) && (next - 1, ub) in s.book.outers
      && Weights(next - 1, ub) in s.store && Reduced(next - 1, ub) in s.store
      && (w.extras ==> Cut(next - 1, ub, 0) in s.store)
  }

  predicate Enabled<V>(w: World<V>, s: State<V>, step: Step<V>)
  {
    match step
    case Ticks(now, _, _, pin) => s.clock <= now && |pin| == w.blocks
    case Restarts => true
    case Begins(a, _, now) => s.clock <= now && a !in s.store && a !in s.running && CanMake(w, s, a, now)
    case Lands(a) => a in s.running
    case Drops(a) => a in s.running
  }

  /** What a reduce computes from its inputs. */
  function ReduceValue<V>(w: World<V>, store: map<Artifact, V>, m: Manifest): V
    requires InputsThere(store, m.inputs)
  {
    w.reduce(m.arity, map a | a in m.inputs :: store[a])
  }

  /** What a worker makes: forward and inner jobs any value, a reduce and an outer step what their inputs give. */
  function Made<V>(w: World<V>, s: State<V>, a: Artifact, v: V, now: real): V
    requires CanMake(w, s, a, now)
  {
    match a
    case Reduced(r, ub) => ReduceValue(w, s.store, s.book.reduces[(r, ub)])
    case Weights(next, ub) => w.outer(s.store[Weights(next - 1, ub)], s.store[Reduced(next - 1, ub)])
    case _ => v
  }

  function Apply<V>(w: World<V>, s: State<V>, step: Step<V>): State<V>
    requires Enabled(w, s, step)
  {
    match step
    case Ticks(now, graceOver, workers, pin) => Tick(w, s, now, graceOver, workers, pin).(clock := now)
    case Restarts => s.(started := map[])
    case Begins(a, v, now) => s.(running := s.running[a := Made(w, s, a, v, now)], clock := now)
    case Lands(a) => s.(store := s.store[a := s.running[a]], running := s.running - {a})
    case Drops(a) => s.(running := s.running - {a})
  }

  predicate StepAt<V(==)>(w: World<V>, states: seq<State<V>>, steps: seq<Step<V>>, i: nat)
    requires i < |steps| && |states| == |steps| + 1
  {
    Enabled(w, states[i], steps[i]) && states[i + 1] == Apply(w, states[i], steps[i])
  }

  ghost predicate ValidRun<V>(w: World<V>, states: seq<State<V>>, steps: seq<Step<V>>)
  {
    && |states| == |steps| + 1 && states[0] == Start(w, states[0].clock)
    && forall i :: 0 <= i < |steps| ==> StepAt(w, states, steps, i)
  }

  // ------------------------------------------------------------------------
  // What every step keeps
  // ------------------------------------------------------------------------

  predicate SameBlock(e: Emission, f: Emission) { e.round == f.round && e.ub == f.ub }

  predicate ForBlock(e: Emission, p: (nat, nat)) { (e.round, e.ub) == p }

  /**
   An emission read what was there: all its inputs are deltas of its round and block, as many as its graph
   takes, and they met the quorum.
   */
  ghost predicate EmissionOk<V>(p: Params, store: map<Artifact, V>, b: Book, e: Emission)
  {
    && (e.round, e.ub) in b.reduces && b.reduces[(e.round, e.ub)] == e.manifest
    && InputsThere(store, e.manifest.inputs) && e.manifest.arity == |e.manifest.inputs|
    && (forall a :: a in e.manifest.inputs ==> a.Delta? && a.round == e.round && a.ub == e.ub)
    && QuorumMet(p, |e.manifest.inputs|, e.elapsed)
  }

  ghost predicate Logged(b: Book, p: (nat, nat)) { exists i :: 0 <= i < |b.log| && ForBlock(b.log[i], p) }

  /** Markers, manifests and log agree, and no block of a round is in the log twice. */
  ghost predicate BookOk<V>(p: Params, store: map<Artifact, V>, b: Book)
  {
    && b.reduces.Keys == b.markers == b.outers
    && (forall i :: 0 <= i < |b.log| ==> EmissionOk(p, store, b, b.log[i]))
    && (forall q :: q in b.markers ==> Logged(b, q))
    && (forall i, j :: 0 <= i < j < |b.log| ==> !SameBlock(b.log[i], b.log[j]))
  }

  lemma NewEmissionOk<V>(p: Params, store: map<Artifact, V>, b: Book, round: nat, ub: nat, elapsed: real, due: int)
    requires BookOk(p, store, b) && (round, ub) !in b.markers && QuorumMet(p, |DeltasOf(store, round, ub)|, elapsed)
    ensures var b' := BookOne(p, store, b, round, ub, elapsed, due);
            && |b'.log| == |b.log| + 1 && b'.log[..|b.log|] == b.log && ForBlock(b'.log[|b.log|], (round, ub))
            && EmissionOk(p, store, b', b'.log[|b.log|])
  {
  }

  lemma OldEmissionOk<V>(p: Params, store: map<Artifact, V>, b: Book, round: nat, ub: nat, elapsed: real, due: int,
                         i: nat)
    requires BookOk(p, store, b) && (round, ub) !in b.markers &&
             QuorumMet(p, |DeltasOf(store, round, ub)|, elapsed) && i < |b.log|
    ensures var b' := BookOne(p, store, b, round, ub, elapsed, due);
            EmissionOk(p, store, b', b.log[i]) && !ForBlock(b.log[i], (round, ub))
  {
    assert EmissionOk(p, store, b, b.log[i]);
  }

  lemma LoggedKept(b: Book, b': Book, q: (nat, nat))
    requires Logged(b, q) && b.log <= b'.log
    ensures Logged(b', q)
  {
    var i :| 0 <= i < |b.log| && ForBlock(b.log[i], q);
    assert ForBlock(b'.log[i], q);
  }

  lemma NoneTwice(log: seq<Emission>, e: Emission)
    requires forall i, j :: 0 <= i < j < |log| ==> !SameBlock(log[i], log[j])
    requires forall i :: 0 <= i < |log| ==> !ForBlock(log[i], (e.round, e.ub))
    ensures var more := log + [e]; forall i, j :: 0 <= i < j < |more| ==> !SameBlock(more[i], more[j])
  {
  }

  lemma BookOneKeeps<V>(p: Params, store: map<Artifact, V>, b: Book, round: nat, ub: nat, elapsed: real, due: int,
                        b': Book)
    requires BookOk(p, store, b) && b' == BookOne(p, store, b, round, ub, elapsed, due)
    ensures BookOk(p, store, b')
  {
    if (round, ub) !in b.markers && QuorumMet(p, |DeltasOf(store, round, ub)|, elapsed) {
      var n := |b.log|;
      NewEmissionOk(p, store, b, round, ub, elapsed, due);
      assert b'.log == b.log + [b'.log[n]];
      forall i | 0 <= i < n ensures EmissionOk(p, store, b', b.log[i]) && !ForBlock(b.log[i], (round, ub)) {
        OldEmissionOk(p, store, b, round, ub, elapsed, due, i);
      }
      NoneTwice(b.log, b'.log[n]);
      forall q | q in b'.markers ensures Logged(b', q) {
        if q in b.markers {
          LoggedKept(b, b', q);
        } else {
          assert ForBlock(b'.log[n], q);
        }
      }
    }
  }

  lemma BookedNext<V>(p: Params, store: map<Artifact, V>, b: Book, round: nat, elapsed: real, due: int, n: nat)
    requires n > 0 && BookOk(p, store, BookUpTo(p, store, b, round, elapsed, due, n - 1))
    ensures BookOk(p, store, BookUpTo(p, store, b, round, elapsed, due, n))
  {
    var b1 := BookUpTo(p, store, b, round, elapsed, due, n - 1);
    BookOneKeeps(p, store, b1, round, n - 1, elapsed, due, BookOne(p, store, b1, round, n - 1, elapsed, due));
  }

  lemma {:induction false} BookUpToKeeps<V>(p: Params, store: map<Artifact, V>, b: Book, round: nat, elapsed: real,
                                            due: int, n: nat)
    requires BookOk(p, store, b)
    ensures BookOk(p, store, BookUpTo(p, store, b, round, elapsed, due, n))
    decreases n
  {
    if n > 0 {
      BookUpToKeeps(p, store, b, round, elapsed, due, n - 1);
      BookedNext(p, store, b, round, elapsed, due, n);
    }
  }

  /** The book survives a growing store. */
  lemma BookKept<V>(p: Params, store: map<Artifact, V>, store': map<Artifact, V>, b: Book)
    requires BookOk(p, store, b) && Within(store, store')
    ensures BookOk(p, store', b)
  {
    forall i | 0 <= i < |b.log| ensures EmissionOk(p, store', b, b.log[i]) {
      assert EmissionOk(p, store, b, b.log[i]);
    }
  }

  /** A tick changes the book as its reduces do, or not at all, and never the store. */
  lemma TickParts<V>(w: World<V>, s: State<V>, now: real, graceOver: bool, workers: seq<WorkerId>,
                     pin: seq<seq<WorkerId>>)
    returns (elapsed: real, n: nat)
    requires |pin| == w.blocks
    ensures var s' := Tick(w, s, now, graceOver, workers, pin);
            && s'.store == s.store && s'.running == s.running
            && s'.book == BookUpTo(w.params, s.store, s.book, s.cursor, elapsed, Deadline(now), n)
            && ((s'.cursor == s.cursor && s'.completed == s.completed)
                || (s'.cursor == s.cursor + 1 && s'.completed == s.completed + [s.cursor] &&
                  AllWeights(w, s.store, s.cursor + 1)))
  {
    if AtEnd(w, s.cursor) || workers == [] || (s.cursor !in s.emitted && s.cursor == 0 && !graceOver) {
      elapsed, n := 0.0, 0;
    } else {
      var s1 := if s.cursor !in s.emitted then EmitRound(w, s, s.cursor, now, workers, pin) else s;
      elapsed, n := Elapsed(s1.started, s1.cursor, now), w.blocks;
    }
  }

  // ------------------------------------------------------------------------
  // Values
  // ------------------------------------------------------------------------

  /** The artifact was computed from what it should have been. */
  ghost predicate ValueOk<V>(w: World<V>, store: map<Artifact, V>, b: Book, a: Artifact, v: V)
  {
    match a
    case Cut(r, ub, mb) => ub < w.blocks && mb < w.params.mbs && AllWeights(w, store, r)
    case Delta(r, ub, mb, _) => Weights(r, ub) in store && Cut(r, ub, mb) in store
    case Reduced(r, ub) =>
      && (r, ub) in b.reduces && InputsThere(store, b.reduces[(r, ub)].inputs)
      && v == ReduceValue(w, store, b.reduces[(r, ub)])
    case Weights(next, ub) =>
      next > 0 ==>
        && Weights(next - 1, ub) in store && Reduced(next - 1, ub) in store
        && (w.extras ==> Cut(next - 1, ub, 0) in store)
        && v == w.outer(store[Weights(next - 1, ub)], store[Reduced(next - 1, ub)])
  }

  ghost predicate ValuesOk<V>(w: World<V>, store: map<Artifact, V>, b: Book, values: map<Artifact, V>)
  {
    forall a :: a in values ==> ValueOk(w, store, b, a, values[a])
  }

  /** Every stored or running artifact was computed from what it should have been; none is stored and running. */
  ghost predicate WorkOk<V>(w: World<V>, s: State<V>)
  {
    && ValuesOk(w, s.store, s.book, s.store) && ValuesOk(w, s.store, s.book, s.running)
    && forall a :: a in s.running ==> a !in s.store
  }

  ghost predicate OnlyDeltas(inner: set<Artifact>) { forall a :: a in inner ==> a.Delta? }

  /** Manifests only get added. */
  ghost predicate BookGrows(b: Book, b': Book) { Within(b.reduces, b'.reduces) }

  lemma {:induction false} BookUpToGrows<V>(p: Params, store: map<Artifact, V>, b: Book, round: nat, elapsed: real,
                                            due: int, n: nat)
    requires BookOk(p, store, b)
    ensures BookGrows(b, BookUpTo(p, store, b, round, elapsed, due, n))
    decreases n
  {
    if n > 0 {
      BookUpToGrows(p, store, b, round, elapsed, due, n - 1);
      BookUpToKeeps(p, store, b, round, elapsed, due, n - 1);
    }
  }

  lemma ReduceValueKept<V>(w: World<V>, store: map<Artifact, V>, store': map<Artifact, V>, m: Manifest)
    requires InputsThere(store, m.inputs) && Within(store, store')
    ensures InputsThere(store', m.inputs) && ReduceValue(w, store', m) == ReduceValue(w, store, m)
  {
    assert (map a | a in m.inputs :: store[a]) == (map a | a in m.inputs :: store'[a]);
  }

  /** What was computed right stays so as store and book grow. */
  lemma ValueKept<V>(w: World<V>, store: map<Artifact, V>, store': map<Artifact, V>, b: Book, b': Book, a: Artifact,
                     v: V)
    requires ValueOk(w, store, b, a, v) && Within(store, store') && BookGrows(b, b')
    ensures ValueOk(w, store', b', a, v)
  {
    if a.Reduced? {
      ReduceValueKept(w, store, store', b.reduces[(a.round, a.ub)]);
    } else if a.Cut? {
      WeightsStay(w, store, store', a.round);
    }
  }

  lemma ValuesKept<V>(w: World<V>, store: map<Artifact, V>, store': map<Artifact, V>, b: Book, b': Book,
                      values: map<Artifact, V>)
    requires ValuesOk(w, store, b, values) && Within(store, store') && BookGrows(b, b')
    ensures ValuesOk(w, store', b', values)
  {
    forall a | a in values ensures ValueOk(w, store', b', a, values[a]) {
      ValueKept(w, store, store', b, b', a, values[a]);
    }
  }

  lemma BeginsRight<V>(w: World<V>, s: State<V>, a: Artifact, v: V, now: real)
    requires CanMake(w, s, a, now)
    ensures ValueOk(w, s.store, s.book, a, Made(w, s, a, v, now))
  {
  }

  lemma WorkAfterTick<V>(w: World<V>, s: State<V>, s': State<V>)
    requires WorkOk(w, s) && s'.store == s.store && s'.running == s.running && BookGrows(s.book, s'.book)
    ensures WorkOk(w, s')
  {
    ValuesKept(w, s.store, s.store, s.book, s'.book, s.store);
    ValuesKept(w, s.store, s.store, s.book, s'.book, s.running);
  }

  lemma WorkAfterLanding<V>(w: World<V>, s: State<V>, a: Artifact, s': State<V>)
    requires WorkOk(w, s) && a in s.running && s' == Apply(w, s, Lands(a))
    ensures WorkOk(w, s')
  {
    ValuesKept(w, s.store, s'.store, s.book, s.book, s.store);
    ValuesKept(w, s.store, s'.store, s.book, s.book, s.running);
    forall x | x in s'.store ensures ValueOk(w, s'.store, s'.book, x, s'.store[x]) {
      assert x == a ==> ValueOk(w, s'.store, s.book, a, s.running[a]);
    }
  }

  lemma WorkAfter<V>(w: World<V>, s: State<V>, step: Step<V>, s': State<V>)
    requires WorkOk(w, s) && Enabled(w, s, step) && (step.Begins? || step.Lands? || step.Drops?)
    requires s' == Apply(w, s, step)
    ensures WorkOk(w, s')
  {
    if step.Begins? {
      BeginsRight(w, s, step.artifact, step.value, step.now);
    } else if step.Lands? {
      WorkAfterLanding(w, s, step.artifact, s');
    }
  }

  // ------------------------------------------------------------------------
  // The cursor
  // ------------------------------------------------------------------------

  /**
   The completed rounds are exactly those before the cursor, and the weights of every round up to the cursor
   exist.
   */
  ghost predicate CursorOk<V>(w: World<V>, s: State<V>)
  {
    && |s.completed| == s.cursor && (forall i :: 0 <= i < s.cursor ==> s.completed[i] == i)
    && (forall r :: 0 <= r <= s.cursor ==> AllWeights(w, s.store, r))
  }

  lemma WeightsStay<V>(w: World<V>, store: map<Artifact, V>, store': map<Artifact, V>, r: nat)
    requires AllWeights(w, store, r) && Within(store, store')
    ensures AllWeights(w, store', r)
  {
    forall ub | 0 <= ub < w.blocks ensures HasWeights(store', r, ub) {
      assert HasWeights(store, r, ub);
    }
  }

  // ------------------------------------------------------------------------
  // Safety of every run
  // ------------------------------------------------------------------------

  ghost predicate Safe<V>(w: World<V>, s: State<V>)
  {
    BookOk(w.params, s.store, s.book) && WorkOk(w, s) && OnlyDeltas(s.inner) && CursorOk(w, s)
  }

  lemma StartSafe<V>(w: World<V>, clock: real)
    ensures Safe(w, Start(w, clock))
  {
  }

  lemma {:induction false} InnerAreDeltas(p: Params, round: nat, workers: seq<WorkerId>, pin: seq<seq<WorkerId>>,
                                          n: nat)
    requires n <= |pin| && workers != []
    ensures OnlyDeltas(InnerUpTo(p, round, workers, pin, n))
    decreases n
  {
    if n > 0 {
      InnerAreDeltas(p, round, workers, pin, n - 1);
    }
  }

  lemma TickInner<V>(w: World<V>, s: State<V>, now: real, graceOver: bool, workers: seq<WorkerId>,
                     pin: seq<seq<WorkerId>>)
    requires |pin| == w.blocks && OnlyDeltas(s.inner)
    ensures OnlyDeltas(Tick(w, s, now, graceOver, workers, pin).inner)
  {
    if workers != [] {
      InnerAreDeltas(w.params, s.cursor, workers, pin, w.blocks);
      InnerAreDeltas(w.params, s.cursor + 1, workers, pin, w.blocks);
    }
  }

  lemma TickBook<V>(w: World<V>, s: State<V>, s': State<V>, elapsed: real, due: int, n: nat)
    requires BookOk(w.params, s.store, s.book) && WorkOk(w, s) && s'.store == s.store && s'.running == s.running
    requires s'.book == BookUpTo(w.params, s.store, s.book, s.cursor, elapsed, due, n)
    ensures BookOk(w.params, s'.store, s'.book) && WorkOk(w, s')
  {
    BookUpToKeeps(w.params, s.store, s.book, s.cursor, elapsed, due, n);
    BookUpToGrows(w.params, s.store, s.book, s.cursor, elapsed, due, n);
    WorkAfterTick(w, s, s');
  }

  lemma CursorAfterTick<V>(w: World<V>, s: State<V>, s': State<V>)
    requires CursorOk(w, s) && s'.store == s.store
    requires (s'.cursor == s.cursor && s'.completed == s.completed) ||
             (s'.cursor == s.cursor + 1 && s'.completed == s.completed + [s.cursor] &&
              AllWeights(w, s.store, s.cursor + 1))
    ensures CursorOk(w, s')
  {
  }

  lemma TickSafe<V>(w: World<V>, s: State<V>, now: real, graceOver: bool, workers: seq<WorkerId>,
                    pin: seq<seq<WorkerId>>, s': State<V>)
    requires |pin| == w.blocks && Safe(w, s) && s' == Tick(w, s, now, graceOver, workers, pin).(clock := now)
    ensures Safe(w, s')
  {
    var elapsed, n := TickParts(w, s, now, graceOver, workers, pin);
    TickInner(w, s, now, graceOver, workers, pin);
    TickBook(w, s, s', elapsed, Deadline(now), n);
    CursorAfterTick(w, s, s');
  }

  lemma WorkSafe<V>(w: World<V>, s: State<V>, step: Step<V>, s': State<V>)
    requires Safe(w, s) && Enabled(w, s, step) && (step.Begins? || step.Lands? || step.Drops?)
    requires s' == Apply(w, s, step)
    ensures Safe(w, s')
  {
    assert Within(s.store, s'.store);
    BookKept(w.params, s.store, s'.store, s.book);
    forall r | 0 <= r <= s.cursor ensures AllWeights(w, s'.store, r) {
      WeightsStay(w, s.store, s'.store, r);
    }
    WorkAfter(w, s, step, s');
  }

  lemma StepSafe<V>(w: World<V>, s: State<V>, step: Step<V>)
    requires Safe(w, s) && Enabled(w, s, step)
    ensures Safe(w, Apply(w, s, step))
  {
    match step
    case Ticks(now, graceOver, workers, pin) => TickSafe(w, s, now, graceOver, workers, pin, Apply(w, s, step));
    case Restarts =>
    case _ => WorkSafe(w, s, step, Apply(w, s, step));
  }

  /** In every state of every run the book, the values and the cursor are in order. */
  lemma {:induction false} RunSafe<V>(w: World<V>, states: seq<State<V>>, steps: seq<Step<V>>)
    requires ValidRun(w, states, steps)
    ensures Safe(w, states[|steps|])
    decreases |steps|
  {
    if steps == [] {
      StartSafe(w, states[0].clock);
    } else {
      var n := |steps| - 1;
      var before, taken := states[..|steps|], steps[..n];
      assert StepAt(w, states, steps, n);
      forall i | 0 <= i < n ensures StepAt(w, before, taken, i) {
        assert StepAt(w, states, steps, i);
      }
      RunSafe(w, before, taken);
      StepSafe(w, states[n], steps[n]);
    }
  }

  lemma OnlyEmission(b: Book, i: nat, f: Emission)
    requires forall j, k :: 0 <= j < k < |b.log| ==> !SameBlock(b.log[j], b.log[k])
    requires i < |b.log| && f in b.log && SameBlock(b.log[i], f)
    ensures f == b.log[i]
  {
    var j :| 0 <= j < |b.log| && b.log[j] == f;
  }

  lemma FromReduce<V>(w: World<V>, s: State<V>, round: nat, ub: nat) returns (i: nat)
    requires BookOk(w.params, s.store, s.book) && WorkOk(w, s) && Weights(round + 1, ub) in s.store
    ensures i < |s.book.log| && ForBlock(s.book.log[i], (round, ub))
    ensures EmissionOk(w.params, s.store, s.book, s.book.log[i]) && Weights(round, ub) in s.store
    ensures s.store[Weights(round + 1, ub)] ==
            w.outer(s.store[Weights(round, ub)], ReduceValue(w, s.store, s.book.log[i].manifest))
  {
    assert ValueOk(w, s.store, s.book, Weights(round + 1, ub), s.store[Weights(round + 1, ub)]);
    assert ValueOk(w, s.store, s.book, Reduced(round, ub), s.store[Reduced(round, ub)]);
    assert Logged(s.book, (round, ub));
    i :| 0 <= i < |s.book.log| && ForBlock(s.book.log[i], (round, ub));
    assert EmissionOk(w.params, s.store, s.book, s.book.log[i]);
  }

  /**
   The weights of every later round come from an outer step on the output of the one reduce emitted for that
   round and block, over deltas that met the quorum.
   */
  lemma WeightsComeFromReduce<V>(w: World<V>, states: seq<State<V>>, steps: seq<Step<V>>, round: nat, ub: nat)
    returns (e: Emission)
    requires ValidRun(w, states, steps) && Weights(round + 1, ub) in states[|steps|].store
    ensures var s := states[|steps|];
            && e in s.book.log && ForBlock(e, (round, ub)) && EmissionOk(w.params, s.store, s.book, e)
            && (forall f :: f in s.book.log && ForBlock(f, (round, ub)) ==> f == e)
            && Weights(round, ub) in s.store
            && s.store[Weights(round + 1, ub)] ==
              w.outer(s.store[Weights(round, ub)],
                      w.reduce(|e.manifest.inputs|, map a | a in e.manifest.inputs :: s.store[a]))
  {
    RunSafe(w, states, steps);
    var s := states[|steps|];
    var i := FromReduce(w, s, round, ub);
    e := s.book.log[i];
    forall f | f in s.book.log && ForBlock(f, (round, ub)) ensures f == e {
      OnlyEmission(s.book, i, f);
    }
  }
}
