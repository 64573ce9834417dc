/**
 The sequential reference run: execute the emitted jobs one after another, in
 emission order, on a store of artifacts. A job whose inputs are missing, whose
 graph raises, or whose graph lacks a declared output writes nothing.
 */
module Dataflow {
  import opened Common
  import opened Pipeline

  type Store = map<Uri, Value>

  predicate InputsPresent(t: Task, store: Store)
  {
    forall r :: r in t.inputs ==> r.uri in store
  }

  predicate OutputsPresent(t: Task, store: Store)
  {
    forall o :: o in t.outputs ==> o.uri in store
  }

  /** The dictionary a job evaluates: one entry per reference, later references win. */
  ghost function Gather(refs: seq<IORef>, store: Store): map<Name, Value>
    requires forall r :: r in refs ==> r.uri in store
  {
    if |refs| == 0 then map[]
    else
      var last := refs[|refs| - 1];
      Gather(refs[..|refs| - 1], store)[last.name := store[last.uri]]
  }

  function Puts(outputs: seq<IORef>, out: map<Name, Value>): (puts: Store)
    requires forall o :: o in outputs ==> o.name in out
    ensures forall u :: u in puts <==> exists o :: o in outputs && o.uri == u
  {
    if |outputs| == 0 then map[]
    else
      var last := outputs[|outputs| - 1];
      assert forall o :: o in outputs <==> o in outputs[..|outputs| - 1] || o == last;
      Puts(outputs[..|outputs| - 1], out)[last.uri := out[last.name]]
  }

  ghost predicate OutputsAreFunctional(outputs: seq<IORef>)
  {
    forall o, p :: o in outputs && p in outputs && o.uri == p.uri ==> o == p
  }

  /** Each output is stored under its own URI. */
  lemma {:induction false} PutsValue(outputs: seq<IORef>, out: map<Name, Value>, o: IORef)
    requires (forall p :: p in outputs ==> p.name in out) && o in outputs && OutputsAreFunctional(outputs)
    ensures Puts(outputs, out)[o.uri] == out[o.name]
  {
    var last := outputs[|outputs| - 1];
    assert last in outputs;
    if o != last {
      assert o in outputs[..|outputs| - 1];
      PutsValue(outputs[..|outputs| - 1], out, o);
    }
  }

  /** Evaluation returns and produces every declared output. */
  ghost predicate Succeeds(cfg: Config, t: Task, inputs: map<Name, Value>)
  {
    && cfg.eval(t.graph, t.params, inputs).Some?
    && forall o :: o in t.outputs ==> o.name in cfg.eval(t.graph, t.params, inputs).value
  }

  ghost function Outcome(cfg: Config, t: Task, inputs: map<Name, Value>): (puts: Store)
    ensures forall u :: u in puts ==> Writes(t, u)
  {
    if Succeeds(cfg, t, inputs) then Puts(t.outputs, cfg.eval(t.graph, t.params, inputs).value) else map[]
  }

  /** A job stores, under the URI of each output, what evaluation gives under that output's name. */
  lemma OutcomeValue(cfg: Config, id: JobId, inputs: map<Name, Value>, o: IORef)
    requires id.stage < |cfg.stages| && o in TaskOf(cfg, id).outputs && Succeeds(cfg, TaskOf(cfg, id), inputs)
    ensures var t := TaskOf(cfg, id); var puts := Outcome(cfg, t, inputs);
            && o.uri in puts && puts[o.uri] == cfg.eval(t.graph, t.params, inputs).value[o.name]
  {
    var t := TaskOf(cfg, id);
    forall p, q | p in t.outputs && q in t.outputs && p.uri == q.uri ensures p == q {
      OutputsFunctional(cfg, id, p, q);
    }
    PutsValue(t.outputs, cfg.eval(t.graph, t.params, inputs).value, o);
  }

  ghost function RunOne(cfg: Config, t: Task, store: Store): Store
  {
    if InputsPresent(t, store) then store + Outcome(cfg, t, Gather(t.inputs, store)) else store
  }

  ghost function RunTo(cfg: Config, ts: seq<Task>, i: nat, init: Store): Store
    requires i <= |ts|
  {
    if i == 0 then init else RunOne(cfg, ts[i - 1], RunTo(cfg, ts, i - 1, init))
  }

  /** `n` whole epochs, one job at a time. */
  ghost function SequentialRun(cfg: Config, init: Store, n: nat): Store
  {
    RunTo(cfg, AllTasks(cfg, n), |AllTasks(cfg, n)|, init)
  }

  /** A run starts from artifacts that no job produces: epoch-0 weights and static blobs. */
  ghost predicate Given(init: Store)
  {
    forall u :: u in init ==> Producer(u).None?
  }

  // ------------------------------------------------------------------------
  // The order in which a worker collects its inputs
  // ------------------------------------------------------------------------

  /** Cached references first, then the misses, each in manifest order. */
  function Keep(refs: seq<IORef>, uris: set<Uri>, inside: bool): (kept: seq<IORef>)
    ensures forall r :: r in kept <==> r in refs && ((r.uri in uris) == inside)
  {
    if |refs| == 0 then []
    else
      var last := refs[|refs| - 1];
      assert forall r :: r in refs <==> r in refs[..|refs| - 1] || r == last;
      Keep(refs[..|refs| - 1], uris, inside) + (if (last.uri in uris) == inside then [last] else [])
  }

  function FetchOrder(refs: seq<IORef>, cached: set<Uri>): (order: seq<IORef>)
    ensures forall r :: r in order <==> r in refs
  {
    Keep(refs, cached, true) + Keep(refs, cached, false)
  }

  /** One name never stands for two different artifacts. */
  ghost predicate NamesFunctional(refs: seq<IORef>)
  {
    forall r, q :: r in refs && q in refs && r.name == q.name ==> r.uri == q.uri
  }

  lemma {:induction false} GatherKeys(refs: seq<IORef>, store: Store)
    requires forall r :: r in refs ==> r.uri in store
    ensures forall n :: n in Gather(refs, store) <==> exists r :: r in refs && r.name == n
  {
    if |refs| > 0 {
      var last := refs[|refs| - 1];
      assert forall r :: r in refs <==> r in refs[..|refs| - 1] || r == last;
      GatherKeys(refs[..|refs| - 1], store);
    }
  }

  lemma {:induction false} GatherValues(refs: seq<IORef>, store: Store)
    requires forall r :: r in refs ==> r.uri in store
    requires NamesFunctional(refs)
    ensures forall r :: r in refs ==> r.name in Gather(refs, store) && Gather(refs, store)[r.name] == store[r.uri]
  {
    GatherKeys(refs, store);
    if |refs| > 0 {
      var last := refs[|refs| - 1];
      assert forall r :: r in refs <==> r in refs[..|refs| - 1] || r == last;
      GatherValues(refs[..|refs| - 1], store);
      assert last in refs;
    }
  }

  /** Two lists with the same references give the same dictionary when names are functional. */
  lemma GatherByContents(a: seq<IORef>, b: seq<IORef>, storeA: Store, storeB: Store)
    requires forall r :: r in a <==> r in b
    requires forall r :: r in a ==> r.uri in storeA && r.uri in storeB && storeA[r.uri] == storeB[r.uri]
    requires NamesFunctional(a)
    ensures Gather(a, storeA) == Gather(b, storeB)
  {
    GatherKeys(a, storeA);
    GatherKeys(b, storeB);
    GatherValues(a, storeA);
    GatherValues(b, storeB);
    forall n | n in Gather(a, storeA) ensures Gather(a, storeA)[n] == Gather(b, storeB)[n] {
      var r :| r in a && r.name == n;
      assert r in b;
    }
  }

  /** Same list, stores that agree on it: no condition on names is needed. */
  lemma {:induction false} GatherSameList(refs: seq<IORef>, storeA: Store, storeB: Store)
    requires forall r :: r in refs ==> r.uri in storeA && r.uri in storeB && storeA[r.uri] == storeB[r.uri]
    ensures Gather(refs, storeA) == Gather(refs, storeB)
  {
    if |refs| > 0 {
      assert refs[|refs| - 1] in refs;
      GatherSameList(refs[..|refs| - 1], storeA, storeB);
    }
  }

  /** A name whose references all hold `v`, except possibly overwritten ones, gathers to `v`. */
  lemma {:induction false} GatherLast(refs: seq<IORef>, store: Store, j: nat)
    requires forall r :: r in refs ==> r.uri in store
    requires j < |refs|
    requires forall k :: j < k < |refs| ==> refs[k].name != refs[j].name
    ensures refs[j].name in Gather(refs, store) && Gather(refs, store)[refs[j].name] == store[refs[j].uri]
  {
    assert refs[j] in refs;
    if j < |refs| - 1 {
      GatherLast(refs[..|refs| - 1], store, j);
      assert refs[|refs| - 1].name != refs[j].name;
    }
  }

  lemma {:induction false} LastWithName(refs: seq<IORef>, n: Name) returns (j: nat)
    requires exists r :: r in refs && r.name == n
    ensures j < |refs| && refs[j].name == n
    ensures forall k :: j < k < |refs| ==> refs[k].name != n
  {
    if refs[|refs| - 1].name == n {
      j := |refs| - 1;
    } else {
      var r :| r in refs && r.name == n;
      assert r in refs[..|refs| - 1];
      j := LastWithName(refs[..|refs| - 1], n);
      assert forall k :: j < k < |refs| - 1 ==> refs[..|refs| - 1][k] == refs[k];
    }
  }

  /** The last reference of a fetch order that carries the name `n`, when some carrier misses the cache. */
  lemma LastMiss(refs: seq<IORef>, u: Uri, n: Name) returns (i: nat)
    requires exists r :: r in refs && r.name == n && r.uri != u
    ensures i < |FetchOrder(refs, {u})| && FetchOrder(refs, {u})[i].name == n && FetchOrder(refs, {u})[i].uri != u
    ensures forall k :: i < k < |FetchOrder(refs, {u})| ==> FetchOrder(refs, {u})[k].name != n
  {
    var hits, misses := Keep(refs, {u}, true), Keep(refs, {u}, false);
    var j := LastWithName(misses, n);
    assert misses[j] in misses;
    i := |hits| + j;
    assert forall k :: |hits| <= k < |hits + misses| ==> (hits + misses)[k] == misses[k - |hits|];
  }

  /** A name that stands for two artifacts reads differently under some cache. */
  lemma CacheOrderMatters(refs: seq<IORef>, v: Value, w: Value) returns (store: Store, cached: set<Uri>)
    requires v != w && !NamesFunctional(refs)
    ensures forall r :: r in refs ==> r.uri in store
    ensures Gather(FetchOrder(refs, cached), store) != Gather(refs, store)
  {
    var r, q :| r in refs && q in refs && r.name == q.name && r.uri != q.uri;
    var j := LastWithName(refs, r.name);
    var u := refs[j].uri;
    var uris := set x | x in refs :: x.uri;
    store := map x | x in uris :: if x == u then w else v;
    cached := {u};
    assert forall x :: x in refs ==> x.uri in uris;
    var i := LastMiss(refs, u, r.name);
    GatherLast(refs, store, j);
    GatherLast(FetchOrder(refs, cached), store, i);
    assert FetchOrder(refs, cached)[i] in FetchOrder(refs, cached);
  }

  ghost predicate SameInputsUnderAnyCache(refs: seq<IORef>)
  {
    forall store: Store, cached: set<Uri> :: (forall r :: r in refs ==> r.uri in store) ==>
      Gather(FetchOrder(refs, cached), store) == Gather(refs, store)
  }

  /**
   What a job reads is independent of the worker's cache contents, for all stores and
   caches, exactly when no name stands for two artifacts. (`v` and `w` are any two values.)
   */
  lemma CacheOrderIndependence(refs: seq<IORef>, v: Value, w: Value)
    requires v != w
    ensures NamesFunctional(refs) <==> SameInputsUnderAnyCache(refs)
  {
    if NamesFunctional(refs) {
      forall store: Store, cached: set<Uri> | forall r :: r in refs ==> r.uri in store
        ensures Gather(FetchOrder(refs, cached), store) == Gather(refs, store)
      {
        GatherByContents(refs, FetchOrder(refs, cached), store, store);
      }
    } else {
      var store, cached := CacheOrderMatters(refs, v, w);
    }
  }

  // ------------------------------------------------------------------------
  // The reference run is a fixed point of every job it contains
  // ------------------------------------------------------------------------

  ghost predicate ShareNoOutput(a: Task, b: Task) { forall u :: Writes(a, u) ==> !Writes(b, u) }

  ghost predicate NeverReadsFrom(a: Task, b: Task) { forall u :: Reads(a, u) ==> !Writes(b, u) }

  /** No URI has two writers, and nobody reads what is written at its own turn or later. */
  ghost predicate Topological(ts: seq<Task>)
  {
    && (forall i, k {:trigger ShareNoOutput(ts[i], ts[k])} :: 0 <= i < k < |ts| ==> ShareNoOutput(ts[i], ts[k]))
    && (forall i, k {:trigger NeverReadsFrom(ts[i], ts[k])} :: 0 <= i <= k < |ts| ==> NeverReadsFrom(ts[i], ts[k]))
  }

  ghost predicate NotProduced(ts: seq<Task>, init: Store)
  {
    forall i, u :: 0 <= i < |ts| && u in init ==> !Writes(ts[i], u)
  }

  lemma AllTopological(cfg: Config, n: nat, init: Store)
    requires Given(init)
    ensures Topological(AllTasks(cfg, n)) && NotProduced(AllTasks(cfg, n), init)
  {
    var ts := AllTasks(cfg, n);
    forall i, k | 0 <= i < k < |ts| ensures ShareNoOutput(ts[i], ts[k]) {
      forall u | Writes(ts[i], u) ensures !Writes(ts[k], u) { EmissionIsTopological(cfg, n, i, k, u); }
    }
    forall i, k | 0 <= i <= k < |ts| ensures NeverReadsFrom(ts[i], ts[k]) {
      forall u | Reads(ts[i], u) ensures !Writes(ts[k], u) { EmissionIsTopological(cfg, n, i, k, u); }
    }
    forall i, u | 0 <= i < |ts| && u in init ensures !Writes(ts[i], u) {
      AllMembers(cfg, n, ts[i]);
      TaskWiring(cfg, ts[i].id, u);
    }
  }

  /** The stores of a run, one per turn: bindings never change, and every new key is written by its turn's job. */
  ghost predicate Log(ts: seq<Task>, log: seq<Store>)
  {
    && |log| == |ts| + 1
    && (forall i {:trigger log[i]} :: 0 < i <= |ts| ==> Turn(ts[i - 1], log[i - 1], log[i]))
  }

  ghost predicate Turn(t: Task, before: Store, after: Store)
  {
    && Within(before, after)
    && forall u :: u in after && u !in before ==> Writes(t, u)
  }

  lemma {:induction false} LogKeys(ts: seq<Task>, log: seq<Store>, i: nat, u: Uri)
    requires Log(ts, log) && i <= |ts| && u in log[i]
    ensures u in log[0] || exists j: nat :: j < i && Writes(ts[j], u)
  {
    if i > 0 {
      assert Turn(ts[i - 1], log[i - 1], log[i]);
      if u in log[i - 1] {
        LogKeys(ts, log, i - 1, u);
      }
    }
  }

  lemma {:induction false} LogGrows(ts: seq<Task>, log: seq<Store>, i: nat, k: nat)
    requires Log(ts, log) && i <= k <= |ts|
    ensures Within(log[i], log[k])
    decreases k
  {
    if i < k {
      LogGrows(ts, log, i, k - 1);
      assert Turn(ts[k - 1], log[k - 1], log[k]);
    }
  }

  /** An artifact of the finished run was there right after its writer's turn. */
  lemma {:induction false} NotLater(ts: seq<Task>, log: seq<Store>, j: nat, k: nat, u: Uri)
    requires Log(ts, log) && Topological(ts)
    requires j < k <= |ts| && Writes(ts[j], u) && u in log[k]
    ensures u in log[j + 1]
    decreases k
  {
    if j + 1 < k {
      assert ShareNoOutput(ts[j], ts[k - 1]);
      assert Turn(ts[k - 1], log[k - 1], log[k]);
      NotLater(ts, log, j, k - 1, u);
    }
  }

  /** What a job reads of the finished run was already final at the job's turn. */
  lemma ReadIsFinal(ts: seq<Task>, log: seq<Store>, i: nat, u: Uri)
    requires Log(ts, log) && Topological(ts)
    requires i < |ts| && Reads(ts[i], u) && u in log[|ts|]
    ensures u in log[i] && log[i][u] == log[|ts|][u]
  {
    LogKeys(ts, log, |ts|, u);
    if u in log[0] {
      LogGrows(ts, log, 0, i);
    } else {
      var j: nat :| j < |ts| && Writes(ts[j], u);
      assert i <= j ==> NeverReadsFrom(ts[i], ts[j]);
      NotLater(ts, log, j, |ts|, u);
      LogGrows(ts, log, j + 1, i);
    }
    LogGrows(ts, log, i, |ts|);
  }

  ghost function RunLog(cfg: Config, ts: seq<Task>, init: Store): (log: seq<Store>)
    ensures |log| == |ts| + 1 && log[0] == init && log[|ts|] == RunTo(cfg, ts, |ts|, init)
  {
    seq(|ts| + 1, i requires 0 <= i <= |ts| => RunTo(cfg, ts, i, init))
  }

  lemma RunKeepsLog(cfg: Config, ts: seq<Task>, init: Store)
    requires Topological(ts) && NotProduced(ts, init)
    ensures Log(ts, RunLog(cfg, ts, init))
  {
    forall i | 0 <= i < |ts| ensures Turn(ts[i], RunTo(cfg, ts, i, init), RunTo(cfg, ts, i + 1, init)) {
      TurnHolds(cfg, ts, i, init);
    }
  }

  lemma {:induction false} RunToKeys(cfg: Config, ts: seq<Task>, i: nat, init: Store, u: Uri)
    requires i <= |ts| && u in RunTo(cfg, ts, i, init)
    ensures u in init || exists j: nat :: j < i && Writes(ts[j], u)
  {
    if i > 0 && u in RunTo(cfg, ts, i - 1, init) {
      RunToKeys(cfg, ts, i - 1, init, u);
    }
  }

  lemma TurnHolds(cfg: Config, ts: seq<Task>, i: nat, init: Store)
    requires Topological(ts) && NotProduced(ts, init) && i < |ts|
    ensures Turn(ts[i], RunTo(cfg, ts, i, init), RunTo(cfg, ts, i + 1, init))
  {
    var before := RunTo(cfg, ts, i, init);
    forall u | u in before ensures !Writes(ts[i], u) {
      RunToKeys(cfg, ts, i, init, u);
      if u !in init {
        var j: nat :| j < i && Writes(ts[j], u);
        assert ShareNoOutput(ts[j], ts[i]);
      }
    }
    assert RunTo(cfg, ts, i + 1, init) == RunOne(cfg, ts[i], before);
  }

  lemma FixpointStep(cfg: Config, t: Task, before: Store, final: Store)
    requires InputsPresent(t, before) && Within(RunOne(cfg, t, before), final)
    requires forall r :: r in t.inputs ==> r.uri in final && before[r.uri] == final[r.uri]
    ensures Within(Outcome(cfg, t, Gather(t.inputs, final)), final)
  {
    GatherSameList(t.inputs, before, final);
  }

  lemma Fixpoint(cfg: Config, ts: seq<Task>, log: seq<Store>, i: nat)
    requires Log(ts, log) && Topological(ts) && i < |ts|
    requires log[i + 1] == RunOne(cfg, ts[i], log[i])
    requires InputsPresent(ts[i], log[|ts|])
    ensures Within(Outcome(cfg, ts[i], Gather(ts[i].inputs, log[|ts|])), log[|ts|])
  {
    forall r | r in ts[i].inputs ensures r.uri in log[i] && log[i][r.uri] == log[|ts|][r.uri] {
      assert Reads(ts[i], r.uri);
      ReadIsFinal(ts, log, i, r.uri);
    }
    LogGrows(ts, log, i + 1, |ts|);
    FixpointStep(cfg, ts[i], log[i], log[|ts|]);
  }

  lemma LogStep(cfg: Config, ts: seq<Task>, init: Store, i: nat)
    requires i < |ts|
    ensures RunLog(cfg, ts, init)[i + 1] == RunOne(cfg, ts[i], RunLog(cfg, ts, init)[i])
  {
  }

  lemma RunFixpoint(cfg: Config, ts: seq<Task>, i: nat, init: Store, log: seq<Store>)
    requires Topological(ts) && Log(ts, log) && log == RunLog(cfg, ts, init) && i < |ts| &&
             InputsPresent(ts[i], log[|ts|])
    ensures Within(Outcome(cfg, ts[i], Gather(ts[i].inputs, log[|ts|])), log[|ts|])
  {
    LogStep(cfg, ts, init, i);
    Fixpoint(cfg, ts, log, i);
  }

  /**
   Executing any job of the run on the finished reference store, in any order and any
   number of times, writes only what is already there.
   */
  lemma ReferenceFixpoint(cfg: Config, n: nat, t: Task, init: Store)
    requires Given(init)
    requires t in AllTasks(cfg, n) && InputsPresent(t, SequentialRun(cfg, init, n))
    ensures Within(Outcome(cfg, t, Gather(t.inputs, SequentialRun(cfg, init, n))), SequentialRun(cfg, init, n))
  {
    AllTopological(cfg, n, init);
    var ts := AllTasks(cfg, n);
    RunKeepsLog(cfg, ts, init);
    var i :| 0 <= i < |ts| && ts[i] == t;
    RunFixpoint(cfg, ts, i, init, RunLog(cfg, ts, init));
  }

  lemma NotBefore(ts: seq<Task>, log: seq<Store>, j: nat, u: Uri)
    requires Log(ts, log) && Topological(ts) && j < |ts| && Writes(ts[j], u) && u !in log[0]
    ensures u !in log[j]
  {
    forall k: nat | k < j ensures !Writes(ts[k], u) {
      assert ShareNoOutput(ts[k], ts[j]);
    }
    if u in log[j] {
      LogKeys(ts, log, j, u);
    }
  }

  lemma WrittenAt(cfg: Config, t: Task, before: Store, final: Store, u: Uri)
    requires u in RunOne(cfg, t, before) && u !in before && Within(before, final)
    ensures InputsPresent(t, final) && u in Outcome(cfg, t, Gather(t.inputs, final))
  {
    GatherSameList(t.inputs, before, final);
  }

  /** Whatever the run has that was not given, a job of it writes on the finished store. */
  lemma ReferenceGrounded(cfg: Config, n: nat, init: Store, u: Uri) returns (t: Task)
    requires Given(init) && u in SequentialRun(cfg, init, n) && u !in init
    ensures t in AllTasks(cfg, n) && Writes(t, u) && InputsPresent(t, SequentialRun(cfg, init, n))
    ensures u in Outcome(cfg, t, Gather(t.inputs, SequentialRun(cfg, init, n)))
  {
    AllTopological(cfg, n, init);
    var ts := AllTasks(cfg, n);
    RunKeepsLog(cfg, ts, init);
    var log := RunLog(cfg, ts, init);
    LogKeys(ts, log, |ts|, u);
    var j: nat :| j < |ts| && Writes(ts[j], u);
    NotLater(ts, log, j, |ts|, u);
    NotBefore(ts, log, j, u);
    LogStep(cfg, ts, init, j);
    LogGrows(ts, log, j, |ts|);
    WrittenAt(cfg, ts[j], log[j], log[|ts|], u);
    t := ts[j];
  }

  // ------------------------------------------------------------------------
  // Longer runs extend shorter ones
  // ------------------------------------------------------------------------

  lemma {:induction false} PrefixRun(cfg: Config, a: seq<Task>, b: seq<Task>, i: nat, init: Store)
    requires i <= |a|
    ensures RunTo(cfg, a + b, i, init) == RunTo(cfg, a, i, init)
  {
    if i > 0 {
      PrefixRun(cfg, a, b, i - 1, init);
      assert (a + b)[i - 1] == a[i - 1];
    }
  }

  /** More jobs at the end of a run keep what it has made, and add nothing that only its own jobs write. */
  lemma LongerRun(cfg: Config, a: seq<Task>, b: seq<Task>, init: Store, u: Uri)
    requires Topological(a + b) && NotProduced(a + b, init)
    ensures Within(RunTo(cfg, a, |a|, init), RunTo(cfg, a + b, |a + b|, init))
    ensures u in RunTo(cfg, a + b, |a + b|, init) && (forall j :: |a| <= j < |a + b| ==> !Writes((a + b)[j], u)) ==>
            u in RunTo(cfg, a, |a|, init)
  {
    var ts := a + b;
    RunKeepsLog(cfg, ts, init);
    PrefixRun(cfg, a, b, |a|, init);
    var log := RunLog(cfg, ts, init);
    assert log[|a|] == RunTo(cfg, a, |a|, init);
    LogGrows(ts, log, |a|, |ts|);
    if u in log[|ts|] && (forall j :: |a| <= j < |ts| ==> !Writes(ts[j], u)) {
      LogKeys(ts, log, |ts|, u);
      if u in init {
        LogGrows(ts, log, 0, |a|);
      } else {
        var j: nat :| j < |ts| && Writes(ts[j], u);
        NotLater(ts, log, j, |ts|, u);
        LogGrows(ts, log, j + 1, |a|);
      }
    }
  }

  lemma EpochProduces(cfg: Config, n: nat, t: Task, u: Uri)
    requires t in EpochTasks(cfg, n)
    ensures Writes(t, u) ==> Producer(u).Some? && Producer(u).value.epoch == n
  {
    EpochMembers(cfg, n, t);
    TaskWiring(cfg, t.id, u);
  }

  lemma NotWrittenLater(cfg: Config, a: seq<Task>, b: seq<Task>, n: nat, u: Uri)
    requires b == EpochTasks(cfg, n) && (Producer(u).Some? ==> Producer(u).value.epoch < n)
    ensures forall j :: |a| <= j < |a + b| ==> !Writes((a + b)[j], u)
  {
    forall j | |a| <= j < |a + b| ensures !Writes((a + b)[j], u) {
      assert (a + b)[j] == b[j - |a|];
      EpochProduces(cfg, n, b[j - |a|], u);
    }
  }

  /** One more epoch changes nothing that the epochs before it can produce. */
  lemma OneMoreEpoch(cfg: Config, init: Store, n: nat, u: Uri)
    requires Given(init)
    ensures Within(SequentialRun(cfg, init, n), SequentialRun(cfg, init, n + 1))
    ensures u in SequentialRun(cfg, init, n + 1) && (Producer(u).Some? ==> Producer(u).value.epoch < n) ==>
            u in SequentialRun(cfg, init, n)
  {
    var a, b := AllTasks(cfg, n), EpochTasks(cfg, n);
    assert a + b == AllTasks(cfg, n + 1);
    AllTopological(cfg, n + 1, init);
    LongerRun(cfg, a, b, init, u);
    if Producer(u).Some? ==> Producer(u).value.epoch < n {
      NotWrittenLater(cfg, a, b, n, u);
    }
  }

  ghost predicate Kept(s: Store, s': Store, u: Uri) { u in s' ==> u in s && s[u] == s'[u] }

  lemma {:induction false} SettledIn(run: nat -> Store, n: nat, m: nat, u: Uri)
    requires n <= m && u in run(m) && forall k :: n < k <= m ==> Kept(run(k - 1), run(k), u)
    ensures u in run(n) && run(n)[u] == run(m)[u]
    decreases m
  {
    if n < m {
      assert Kept(run(m - 1), run(m), u);
      SettledIn(run, n, m - 1, u);
    }
  }

  lemma SettledStep(cfg: Config, init: Store, k: nat, u: Uri)
    requires Given(init) && (Producer(u).Some? ==> Producer(u).value.epoch < k)
    ensures Kept(SequentialRun(cfg, init, k), SequentialRun(cfg, init, k + 1), u)
  {
    OneMoreEpoch(cfg, init, k, u);
  }

  lemma SettledSteps(cfg: Config, init: Store, run: nat -> Store, n: nat, m: nat, u: Uri)
    requires Given(init) && (Producer(u).Some? ==> Producer(u).value.epoch < n)
    requires forall k :: run(k) == SequentialRun(cfg, init, k)
    ensures forall k :: n < k <= m ==> Kept(run(k - 1), run(k), u)
  {
    forall k | n < k <= m ensures Kept(run(k - 1), run(k), u) {
      SettledStep(cfg, init, k - 1, u);
    }
  }

  /** An artifact's value is settled by the epochs up to its producer's. */
  lemma SettledBy(cfg: Config, init: Store, n: nat, m: nat, u: Uri)
    requires Given(init) && n <= m
    requires u in SequentialRun(cfg, init, m)
    requires Producer(u).Some? ==> Producer(u).value.epoch < n
    ensures u in SequentialRun(cfg, init, n)
    ensures SequentialRun(cfg, init, n)[u] == SequentialRun(cfg, init, m)[u]
  {
    var run := (k: nat) => SequentialRun(cfg, init, k);
    SettledSteps(cfg, init, run, n, m, u);
    SettledIn(run, n, m, u);
  }
}
