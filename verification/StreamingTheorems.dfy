/**
 Safety of every run of the streaming system: confluence with the sequential run, the
 orchestrator's invariant, and the closure of the bucket under dependencies.
 */
module StreamingTheorems {
  import opened Common
  import opened Pipeline
  import opened Dataflow
  import opened StreamingOrch
  import opened WorkerCache
  import opened StreamingRuns

  // ------------------------------------------------------------------------
  // Orchestrator state
  // ------------------------------------------------------------------------

  ghost predicate OrchOk(w: World, o: Orch)
  {
    ManifestsOk(w.cfg, o) && AttemptsOk(w.knobs, o) && RetriedOk(o) && o.completed == Range(o.cursor)
  }

  lemma EmitKeeps(w: World, o: Orch, table: seq<seq<WorkerId>>, hosts: map<WorkerId, nat>, now: int)
    requires |table| == |w.cfg.stages| && Coverage(table) && OrchOk(w, o)
    ensures OrchOk(w, Emit(w.cfg, w.knobs, o, table, hosts, now))
    ensures forall id :: id in o.manifests && id.epoch != o.cursor ==>
              id in Emit(w.cfg, w.knobs, o, table, hosts, now).manifests &&
              Emit(w.cfg, w.knobs, o, table, hosts, now).manifests[id] == o.manifests[id]
    ensures forall id :: Emits(w.cfg, id) && id.epoch == o.cursor && o.cursor !in o.emitted ==>
              id in Emit(w.cfg, w.knobs, o, table, hosts, now).manifests
  {
    if o.cursor !in o.emitted {
      var o' := Emit(w.cfg, w.knobs, o, table, hosts, now);
      forall id ensures id in o'.manifests && id !in o.manifests ==>
                          Emits(w.cfg, id) && id.epoch == o.cursor && o'.manifests[id].task == TaskOf(w.cfg, id)
                ensures id in o.manifests ==> id in o'.manifests && o'.manifests[id] == o.manifests[id]
                ensures Emits(w.cfg, id) && id.epoch == o.cursor ==> id in o'.manifests
      {
        EmitSpec(w.cfg, w.knobs, o, table, hosts, now, id);
      }
    }
  }

  lemma RetryKeeps(w: World, o: Orch, bucket: Store, table: seq<seq<WorkerId>>, now: int)
    requires OrchOk(w, o)
    ensures OrchOk(w, Retry(w.cfg, w.knobs, o, bucket, table, now))
    ensures Retry(w.cfg, w.knobs, o, bucket, table, now).manifests.Keys == o.manifests.Keys
  {
    var o' := Retry(w.cfg, w.knobs, o, bucket, table, now);
    var changed := RetryFacts(w.cfg, w.knobs, o, bucket, table, now);
    var before, after := Scan(o.manifests, o.retried, o.evicted, 0), Scan(o'.manifests, o'.retried, o'.evicted, 0);
    forall id ensures id in o.manifests <==> id in o'.manifests
              ensures id in o.manifests ==> o'.manifests[id].task == o.manifests[id].task
              ensures id in o.manifests ==>
                      Attempts(o'.retried, id) <= if w.knobs.maxRetries > 0 then w.knobs.maxRetries else 0
    {
      assert Reassigned(w.knobs, table, before, after, id) || Untouched(before, after, id);
    }
    RetriedStays(w, o, bucket, table, now);
  }

  lemma {:induction false} ScanRetriedKeys(k: Knobs, sc: Scan, bucket: Store, table: seq<seq<WorkerId>>, now: int,
                                           ids: seq<JobId>)
    requires forall id :: id in sc.retried ==> id in sc.manifests
    ensures forall id :: id in RetryScan(k, sc, bucket, table, now, ids).retried ==>
            id in RetryScan(k, sc, bucket, table, now, ids).manifests
    decreases |ids|
  {
    if |ids| > 0 {
      var next := RetryOne(k, sc, bucket, table, now, ids[0]);
      ScanRetriedKeys(k, next, bucket, table, now, ids[1..]);
    }
  }

  lemma RetriedStays(w: World, o: Orch, bucket: Store, table: seq<seq<WorkerId>>, now: int)
    requires RetriedOk(o)
    ensures RetriedOk(Retry(w.cfg, w.knobs, o, bucket, table, now))
  {
    if RetryDue(w.knobs, o, now) {
      ScanRetriedKeys(w.knobs, Scan(o.manifests, o.retried, o.evicted, 0), bucket, table, now,
        TaskIds(EpochTasks(w.cfg, o.cursor)));
    }
  }

  lemma AdvanceKeeps(w: World, o: Orch, bucket: Store)
    requires |w.cfg.stages| > 0 && OrchOk(w, o)
    ensures OrchOk(w, Advance(w.cfg, o, bucket))
  {
    var o' := Advance(w.cfg, o, bucket);
    assert Range(o.cursor + 1) == Range(o.cursor) + [o.cursor];
    assert o'.manifests == o.manifests && o'.emitted == o.emitted && o'.retried == o.retried;
  }

  lemma EmitFrame(w: World, o: Orch, table: seq<seq<WorkerId>>, hosts: map<WorkerId, nat>, now: int)
    requires |table| == |w.cfg.stages| && Coverage(table)
    ensures var o' := Emit(w.cfg, w.knobs, o, table, hosts, now);
            o.emitted <= o'.emitted <= o.emitted + {o.cursor} && o'.evicted == o.evicted && o'.cursor == o.cursor
  {
  }

  lemma RetryFrame(w: World, o: Orch, bucket: Store, table: seq<seq<WorkerId>>, now: int)
    ensures var o' := Retry(w.cfg, w.knobs, o, bucket, table, now);
            o'.emitted == o.emitted && o.evicted <= o'.evicted && o'.cursor == o.cursor
  {
    var _ := RetryFacts(w.cfg, w.knobs, o, bucket, table, now);
  }

  /**
   A tick keeps the orchestrator's invariant, only adds emissions and evictions, and moves the cursor only when
   the epoch is done.
   */
  lemma TickKeeps(w: World, o: Orch, bucket: Store, infos: seq<WorkerInfo>, now: int, graceOver: bool)
    requires |w.cfg.stages| > 0 && OrchOk(w, o)
    ensures var o' := Tick(w.cfg, w.knobs, o, bucket, infos, now, graceOver);
            && OrchOk(w, o')
            && o.emitted <= o'.emitted <= o.emitted + {o.cursor}
            && o.evicted <= o'.evicted
            && (o'.cursor == o.cursor || (o'.cursor == o.cursor + 1 && EpochDone(w.cfg, bucket, o.cursor)))
  {
    var table := StageTable(|w.cfg.stages|, infos, o.evicted, now);
    if !(o.cursor >= w.cfg.maxEpochs || (o.cursor == 0 && !graceOver) || !Coverage(table)) {
      var hosts := Hosts(infos, o.evicted, now);
      EmitKeeps(w, o, table, hosts, now);
      EmitFrame(w, o, table, hosts, now);
      var o1 := Emit(w.cfg, w.knobs, o, table, hosts, now);
      RetryKeeps(w, o1, bucket, table, now);
      RetryFrame(w, o1, bucket, table, now);
      AdvanceKeeps(w, Retry(w.cfg, w.knobs, o1, bucket, table, now), bucket);
    }
  }

  // ------------------------------------------------------------------------
  // Confluence
  // ------------------------------------------------------------------------

  /** No job of the configuration uses one input name for two artifacts. */
  ghost predicate NamesOk(cfg: Config)
  {
    forall id :: Emits(cfg, id) ==> NamesFunctional(TaskOf(cfg, id).inputs)
  }

  /** `f` is a fixed point of every job of the epochs below `n`. */
  ghost predicate IsReference(cfg: Config, n: nat, f: Store)
  {
    forall id :: Emits(cfg, id) && id.epoch < n && InputsPresent(TaskOf(cfg, id), f) ==>
      Within(Outcome(cfg, TaskOf(cfg, id), Gather(TaskOf(cfg, id).inputs, f)), f)
  }

  lemma SequentialIsReference(cfg: Config, init: Store, n: nat)
    requires Given(init)
    ensures IsReference(cfg, n, SequentialRun(cfg, init, n))
  {
    forall id | Emits(cfg, id) && id.epoch < n && InputsPresent(TaskOf(cfg, id), SequentialRun(cfg, init, n))
      ensures Within(Outcome(cfg, TaskOf(cfg, id), Gather(TaskOf(cfg, id).inputs, SequentialRun(cfg, init, n))),
              SequentialRun(cfg, init, n))
    {
      AllMembers(cfg, n, TaskOf(cfg, id));
      ReferenceFixpoint(cfg, n, TaskOf(cfg, id), init);
    }
  }

  ghost predicate CachesAgree(c: Caches, f: Store) { Within(c.outs.entries, f) && Within(c.ins.entries, f) }

  ghost predicate CachesValid(w: World, c: Caches) { Valid(c.outs, w.size) && Valid(c.ins, w.size) }

  /** Bucket, uploads and caches all hold the reference values. */
  ghost predicate Agrees(w: World, s: State, f: Store)
  {
    && Within(s.bucket, f)
    && (forall fl :: fl in s.flights ==> fl.uri in f && f[fl.uri] == fl.value)
    && (forall wk :: wk in s.caches ==> CachesAgree(s.caches[wk], f) && CachesValid(w, s.caches[wk]))
  }

  /** A worker with any caches reads exactly what the reference run reads. */
  lemma WorkerReadsReference(w: World, s: State, f: Store, wk: WorkerId, t: Task)
    requires Agrees(w, s, f) && InputsPresent(t, s.bucket) && NamesFunctional(t.inputs)
    ensures InputsPresent(t, f) && WorkerInputs(w, s, wk, t) == Gather(t.inputs, f)
  {
    var c := CachesOf(w, s, wk);
    var order := FetchOrder(t.inputs, CachedKeys(c));
    forall r | r in order ensures r.uri in s.bucket && r.uri in f && ReadAll(c, s.bucket)[r.uri] == f[r.uri] {
      assert r in t.inputs;
    }
    assert NamesFunctional(order);
    GatherByContents(order, t.inputs, ReadAll(c, s.bucket), f);
  }

  lemma FetchAgrees(w: World, c: Caches, f: Store, bucket: Store, fetched: seq<Uri>)
    requires CachesAgree(c, f) && CachesValid(w, c) && Within(bucket, f)
    requires forall u :: u in fetched ==> u in bucket
    ensures var c' := c.(ins := InsertAll(c.ins, Pairs(fetched, bucket), w.size));
            CachesAgree(c', f) && CachesValid(w, c')
  {
    var ps := Pairs(fetched, bucket);
    InsertAllValid(c.ins, ps, w.size);
    forall p | p in ps ensures p.0 in f && p.1 == f[p.0] {
      var i :| 0 <= i < |ps| && ps[i] == p;
      assert fetched[i] in fetched;
    }
    var ins := InsertAll(c.ins, ps, w.size).entries;
    forall u | u in ins ensures u in f && ins[u] == f[u] {
      assert (u, ins[u]) in ps || (u in c.ins.entries && ins[u] == c.ins.entries[u]);
    }
  }

  lemma CachesUpdate(w: World, s: State, f: Store, wk: WorkerId, c: Caches, flights: set<Flight>)
    requires Agrees(w, s, f) && CachesAgree(c, f) && CachesValid(w, c)
    requires forall fl :: fl in flights ==> fl.uri in f && f[fl.uri] == fl.value
    ensures Agrees(w, s.(caches := s.caches[wk := c], flights := flights), f)
  {
  }

  lemma UploadsAgree(flights: set<Flight>, wk: WorkerId, puts: Store, f: Store)
    requires Within(puts, f) && forall fl :: fl in flights ==> fl.uri in f && f[fl.uri] == fl.value
    ensures forall fl :: fl in flights + Uploads(wk, puts) ==> fl.uri in f && f[fl.uri] == fl.value
  {
  }

  /** What a worker computes from its inputs is what the reference run holds. */
  lemma PutsAgree(w: World, s: State, f: Store, n: nat, wk: WorkerId, id: JobId)
    requires NamesOk(w.cfg) && IsReference(w.cfg, n, f) && Agrees(w, s, f)
    requires ManifestsOk(w.cfg, s.orch) && id in s.orch.manifests && (forall e :: e in s.orch.emitted ==> e < n)
    requires InputsPresent(s.orch.manifests[id].task, s.bucket)
    ensures var t := s.orch.manifests[id].task; Within(Outcome(w.cfg, t, WorkerInputs(w, s, wk, t)), f)
  {
    WorkerReadsReference(w, s, f, wk, TaskOf(w.cfg, id));
  }

  lemma PickedUp(w: World, s: State, f: Store, wk: WorkerId, c: Caches, puts: Store)
    requires Agrees(w, s, f) && CachesAgree(c, f) && CachesValid(w, c) && Within(puts, f)
    ensures Agrees(w, s.(caches := s.caches[wk := c], flights := s.flights + Uploads(wk, puts)), f)
  {
    UploadsAgree(s.flights, wk, puts, f);
    CachesUpdate(w, s, f, wk, c, s.flights + Uploads(wk, puts));
  }

  lemma PickupCaches(w: World, s: State, f: Store, wk: WorkerId, t: Task, fetched: seq<Uri>, c: Caches)
    requires Agrees(w, s, f) && Downloads(w, s, wk, t, fetched)
    requires var was := CachesOf(w, s, wk); c == was.(ins := InsertAll(was.ins, Pairs(fetched, s.bucket), w.size))
    ensures CachesAgree(c, f) && CachesValid(w, c)
  {
    FetchAgrees(w, CachesOf(w, s, wk), f, s.bucket, fetched);
  }

  lemma PickupAgrees(w: World, s: State, f: Store, n: nat, wk: WorkerId, id: JobId, now: int, fetched: seq<Uri>,
                     c: Caches, puts: Store)
    requires NamesOk(w.cfg) && IsReference(w.cfg, n, f)
    requires Agrees(w, s, f) && ManifestsOk(w.cfg, s.orch) && (forall e :: e in s.orch.emitted ==> e < n)
    requires MayPickup(s, wk, id, now) && Downloads(w, s, wk, s.orch.manifests[id].task, fetched)
    requires var was := CachesOf(w, s, wk); c == was.(ins := InsertAll(was.ins, Pairs(fetched, s.bucket), w.size))
    requires var t := s.orch.manifests[id].task; puts == Outcome(w.cfg, t, WorkerInputs(w, s, wk, t))
    ensures Agrees(w, s.(caches := s.caches[wk := c], flights := s.flights + Uploads(wk, puts)), f)
  {
    PutsAgree(w, s, f, n, wk, id);
    PickupCaches(w, s, f, wk, s.orch.manifests[id].task, fetched, c);
    PickedUp(w, s, f, wk, c, puts);
  }

  lemma CacheOutputAgrees(w: World, s: State, f: Store, fl: Flight, c: Caches, outs: Cache)
    requires Agrees(w, s, f) && fl in s.flights && c == CachesOf(w, s, fl.worker)
    requires outs == Insert(c.outs, fl.uri, fl.value, w.size)
    ensures Agrees(w, s.(caches := s.caches[fl.worker := c.(outs := outs)], flights := s.flights - {fl}), f)
  {
    OutsAgree(w, f, c, fl.uri, fl.value, outs);
    CachesUpdate(w, s, f, fl.worker, c.(outs := outs), s.flights - {fl});
  }

  lemma OutsAgree(w: World, f: Store, c: Caches, u: Uri, v: Value, outs: Cache)
    requires CachesAgree(c, f) && CachesValid(w, c) && u in f && f[u] == v && outs == Insert(c.outs, u, v, w.size)
    ensures CachesAgree(c.(outs := outs), f) && CachesValid(w, c.(outs := outs))
  {
    InsertValid(c.outs, u, v, w.size);
  }

  lemma StepAgrees(w: World, s: State, f: Store, n: nat, l: Label, s': State)
    requires |w.cfg.stages| > 0 && NamesOk(w.cfg) && IsReference(w.cfg, n, f)
    requires Agrees(w, s, f) && ManifestsOk(w.cfg, s.orch) && (forall e :: e in s.orch.emitted ==> e < n)
    requires Next(w, s, l, s')
    ensures Agrees(w, s', f)
  {
    match l
    case Pickup(wk, id, now, fetched) =>
      var t, c := s.orch.manifests[id].task, CachesOf(w, s, wk);
      PickupAgrees(w, s, f, n, wk, id, now, fetched, c.(ins := InsertAll(c.ins, Pairs(fetched, s.bucket), w.size)),
                   Outcome(w.cfg, t, WorkerInputs(w, s, wk, t)));
    case CacheOutput(fl) =>
      var c := CachesOf(w, s, fl.worker);
      CacheOutputAgrees(w, s, f, fl, c, Insert(c.outs, fl.uri, fl.value, w.size));
    case Land(fl) => assert fl in s.flights;
    case _ =>
  }

  lemma ResumeKeeps(w: World, o: Orch, bucket: Store, e: nat)
    requires OrchOk(w, o) && Resume(w.cfg, o, bucket, e).Some?
    ensures var o' := Resume(w.cfg, o, bucket, e).value;
            OrchOk(w, o') && o.emitted <= o'.emitted && o.evicted <= o'.evicted
  {
  }

  lemma StepOrch(w: World, s: State, l: Label, s': State)
    requires |w.cfg.stages| > 0 && Next(w, s, l, s') && OrchOk(w, s.orch)
    ensures OrchOk(w, s'.orch) && s.orch.emitted <= s'.orch.emitted && s.orch.evicted <= s'.orch.evicted
  {
    if l.OrchTick? {
      TickKeeps(w, s.orch, s.bucket, l.infos, l.now, l.graceOver);
    } else if l.OrchResume? {
      ResumeKeeps(w, s.orch, s.bucket, l.e);
    } else {
      assert s'.orch == s.orch;
    }
  }

  /** The orchestrator's invariant holds throughout a run, and emissions and evictions are never undone. */
  lemma {:induction false} RunOrch(w: World, init: Store, states: seq<State>, labels: seq<Label>, i: nat, j: nat)
    requires ValidRun(w, init, states, labels) && i <= j < |states|
    ensures OrchOk(w, states[i].orch) && OrchOk(w, states[j].orch)
    ensures states[i].orch.emitted <= states[j].orch.emitted && states[i].orch.evicted <= states[j].orch.evicted
    decreases j
  {
    if j > 0 {
      RunOrch(w, init, states, labels, if i < j then i else j - 1, j - 1);
      assert StepAt(w, states, labels, j - 1);
      StepOrch(w, states[j - 1], labels[j - 1], states[j]);
    }
  }

  lemma {:induction false} RunAgrees(w: World, init: Store, f: Store, n: nat, states: seq<State>, labels: seq<Label>,
                                     i: nat)
    requires ValidRun(w, init, states, labels) && i < |states|
    requires NamesOk(w.cfg) && IsReference(w.cfg, n, f) && Within(init, f)
    requires forall e :: e in states[i].orch.emitted ==> e < n
    ensures Agrees(w, states[i], f)
  {
    if i > 0 {
      RunOrch(w, init, states, labels, i - 1, i);
      RunAgrees(w, init, f, n, states, labels, i - 1);
      assert StepAt(w, states, labels, i - 1);
      StepAgrees(w, states[i - 1], f, n, labels[i - 1], states[i]);
    }
  }

  /**
   Confluence. Whatever the interleaving, duplicated or partial execution, retries, evictions,
   restarts and cache contents, each artifact in the bucket has the value that the sequential
   run of `n` epochs gives its URI, for every horizon `n` beyond the emitted epochs.
   */
  lemma Confluence(w: World, init: Store, states: seq<State>, labels: seq<Label>, i: nat, n: nat)
    requires ValidRun(w, init, states, labels) && i < |states|
    requires Given(init) && NamesOk(w.cfg)
    requires forall e :: e in states[i].orch.emitted ==> e < n
    ensures Within(states[i].bucket, SequentialRun(w.cfg, init, n))
  {
    SequentialIsReference(w.cfg, init, n);
    InitWithin(w.cfg, init, n);
    RunAgrees(w, init, SequentialRun(w.cfg, init, n), n, states, labels, i);
  }

  lemma InitWithin(cfg: Config, init: Store, n: nat)
    requires Given(init)
    ensures Within(init, SequentialRun(cfg, init, n))
  {
    var ts := AllTasks(cfg, n);
    AllTopological(cfg, n, init);
    RunKeepsLog(cfg, ts, init);
    LogGrows(ts, RunLog(cfg, ts, init), 0, |ts|);
  }

  /** A horizon beyond the emitted epochs. */
  lemma Horizon(s: set<nat>) returns (n: nat)
    ensures forall e :: e in s ==> e < n
  {
    n := 0;
    var rest := s;
    while rest != {}
      invariant rest <= s
      invariant forall e :: e in s && e !in rest ==> e < n
    {
      var e :| e in rest;
      if e >= n { n := e + 1; }
      rest := rest - {e};
    }
  }

  // ------------------------------------------------------------------------
  // Dependency closure and the cursor
  // ------------------------------------------------------------------------

  /** An artifact is given, or an emitted job produces it and that job's inputs are all in the bucket. */
  ghost predicate Supported(cfg: Config, init: Store, bucket: Store, u: Uri)
  {
    match Producer(u)
    case None => u in init
    case Some(id) => Emits(cfg, id) && Writes(TaskOf(cfg, id), u) && InputsPresent(TaskOf(cfg, id), bucket)
  }

  ghost predicate AllSupported(cfg: Config, init: Store, bucket: Store)
  {
    forall u {:trigger Supported(cfg, init, bucket, u)} :: u in bucket ==> Supported(cfg, init, bucket, u)
  }

  ghost predicate Closed(w: World, init: Store, s: State)
  {
    && (forall u :: u in init ==> u in s.bucket)
    && AllSupported(w.cfg, init, s.bucket)
    && (forall fl :: fl in s.flights ==> Supported(w.cfg, init, s.bucket, fl.uri))
    && (forall fl :: fl in s.flights && fl.landed ==> fl.uri in s.bucket)
    && (forall wk, u :: wk in s.caches && u in CachedKeys(s.caches[wk]) ==> u in s.bucket)
    && (forall wk :: wk in s.caches ==> CachesValid(w, s.caches[wk]))
    && (w.cfg.training ==> WeightsReady(w.cfg, s.bucket, s.orch.cursor))
  }

  lemma OutcomeSupported(w: World, init: Store, bucket: Store, id: JobId, inputs: map<Name, Value>, u: Uri)
    requires Emits(w.cfg, id) && InputsPresent(TaskOf(w.cfg, id), bucket)
    requires u in Outcome(w.cfg, TaskOf(w.cfg, id), inputs)
    ensures Supported(w.cfg, init, bucket, u)
  {
    TaskWiring(w.cfg, id, u);
  }

  lemma FetchCloses(w: World, c: Caches, bucket: Store, fetched: seq<Uri>)
    requires CachesValid(w, c) && forall u :: u in CachedKeys(c) ==> u in bucket
    requires forall u :: u in fetched ==> u in bucket
    ensures var c' := c.(ins := InsertAll(c.ins, Pairs(fetched, bucket), w.size));
            CachesValid(w, c') && forall u :: u in CachedKeys(c') ==> u in bucket
  {
    InsertAllValid(c.ins, Pairs(fetched, bucket), w.size);
    assert forall p :: p in Pairs(fetched, bucket) ==> p.0 in bucket;
  }

  lemma ClosedUpdate(w: World, init: Store, s: State, wk: WorkerId, c: Caches, flights: set<Flight>)
    requires Closed(w, init, s) && CachesValid(w, c) && forall u :: u in CachedKeys(c) ==> u in s.bucket
    requires forall fl :: fl in flights ==> Supported(w.cfg, init, s.bucket, fl.uri)
    requires forall fl :: fl in flights && fl.landed ==> fl.uri in s.bucket
    ensures Closed(w, init, s.(caches := s.caches[wk := c], flights := flights))
  {
  }

  lemma CachesOfClosed(w: World, init: Store, s: State, wk: WorkerId)
    requires Closed(w, init, s)
    ensures CachesValid(w, CachesOf(w, s, wk)) && forall u :: u in CachedKeys(CachesOf(w, s, wk)) ==> u in s.bucket
  {
  }

  lemma PickupCloses(w: World, init: Store, s: State, wk: WorkerId, id: JobId, now: int, fetched: seq<Uri>)
    requires Closed(w, init, s) && ManifestsOk(w.cfg, s.orch)
    requires MayPickup(s, wk, id, now) && Downloads(w, s, wk, s.orch.manifests[id].task, fetched)
    ensures var t, c := s.orch.manifests[id].task, CachesOf(w, s, wk);
            var puts := Outcome(w.cfg, t, WorkerInputs(w, s, wk, t));
            Closed(w, init, s.(caches := s.caches[wk := c.(ins := InsertAll(c.ins, Pairs(fetched, s.bucket), w.size))],
                               flights := s.flights + Uploads(wk, puts), clock := now))
  {
    var t, c := s.orch.manifests[id].task, CachesOf(w, s, wk);
    assert t == TaskOf(w.cfg, id);
    var puts := Outcome(w.cfg, t, WorkerInputs(w, s, wk, t));
    forall u | u in puts ensures Supported(w.cfg, init, s.bucket, u) {
      OutcomeSupported(w, init, s.bucket, id, WorkerInputs(w, s, wk, t), u);
    }
    CachesOfClosed(w, init, s, wk);
    FetchCloses(w, c, s.bucket, fetched);
    ClosedUpdate(w, init, s, wk, c.(ins := InsertAll(c.ins, Pairs(fetched, s.bucket), w.size)),
                 s.flights + Uploads(wk, puts));
  }

  lemma CacheOutputCloses(w: World, init: Store, s: State, fl: Flight)
    requires Closed(w, init, s) && fl in s.flights && fl.landed
    ensures var c := CachesOf(w, s, fl.worker);
            Closed(w, init, s.(caches := s.caches[fl.worker := c.(outs := Insert(c.outs, fl.uri, fl.value, w.size))],
              flights := s.flights - {fl}))
  {
    var c := CachesOf(w, s, fl.worker);
    CachesOfClosed(w, init, s, fl.worker);
    InsertValid(c.outs, fl.uri, fl.value, w.size);
    ClosedUpdate(w, init, s, fl.worker, c.(outs := Insert(c.outs, fl.uri, fl.value, w.size)), s.flights - {fl});
  }

  lemma SupportedMore(cfg: Config, init: Store, bucket: Store, bucket': Store, u: Uri)
    requires Supported(cfg, init, bucket, u) && forall v :: v in bucket ==> v in bucket'
    ensures Supported(cfg, init, bucket', u)
  {
  }

  lemma WeightsReadyMore(cfg: Config, bucket: Store, bucket': Store, e: nat)
    requires WeightsReady(cfg, bucket, e) && forall v :: v in bucket ==> v in bucket'
    ensures WeightsReady(cfg, bucket', e)
  {
  }

  lemma LandCloses(w: World, init: Store, s: State, fl: Flight)
    requires Closed(w, init, s) && fl in s.flights
    ensures Closed(w, init,
            s.(bucket := s.bucket[fl.uri := fl.value], flights := s.flights - {fl} + {fl.(landed := true)}))
  {
    var bucket, flights := s.bucket[fl.uri := fl.value], s.flights - {fl} + {fl.(landed := true)};
    forall u | u in bucket ensures Supported(w.cfg, init, bucket, u) {
      assert Supported(w.cfg, init, s.bucket, u);
      SupportedMore(w.cfg, init, s.bucket, bucket, u);
    }
    forall f | f in flights ensures Supported(w.cfg, init, bucket, f.uri) {
      assert f.uri == fl.uri || f in s.flights;
      SupportedMore(w.cfg, init, s.bucket, bucket, f.uri);
    }
    if w.cfg.training {
      WeightsReadyMore(w.cfg, s.bucket, bucket, s.orch.cursor);
    }
  }

  lemma TickCloses(w: World, init: Store, s: State, infos: seq<WorkerInfo>, now: int, graceOver: bool)
    requires |w.cfg.stages| > 0 && Closed(w, init, s) && OrchOk(w, s.orch)
    ensures Closed(w, init, s.(orch := Tick(w.cfg, w.knobs, s.orch, s.bucket, infos, now, graceOver), clock := now))
  {
    TickKeeps(w, s.orch, s.bucket, infos, now, graceOver);
  }

  lemma StepCloses(w: World, init: Store, s: State, l: Label, s': State)
    requires |w.cfg.stages| > 0 && Next(w, s, l, s')
    requires Closed(w, init, s) && OrchOk(w, s.orch)
    ensures Closed(w, init, s')
  {
    match l
    case OrchTick(infos, now, graceOver) => TickCloses(w, init, s, infos, now, graceOver);
    case OrchResume(e) =>
    case Pickup(wk, id, now, fetched) => PickupCloses(w, init, s, wk, id, now, fetched);
    case Land(fl) => LandCloses(w, init, s, fl);
    case CacheOutput(fl) => CacheOutputCloses(w, init, s, fl);
    case WorkerRestart(wk) =>
  }

  /** In training, a run starts with the epoch-0 weights of every stage that has an outer step. */
  ghost predicate Bootstrapped(cfg: Config, init: Store)
  {
    Given(init) && (cfg.training ==> WeightsReady(cfg, init, 0))
  }

  lemma {:induction false} RunCloses(w: World, init: Store, states: seq<State>, labels: seq<Label>, i: nat)
    requires ValidRun(w, init, states, labels) && i < |states| && Bootstrapped(w.cfg, init)
    ensures Closed(w, init, states[i]) && OrchOk(w, states[i].orch)
  {
    RunOrch(w, init, states, labels, i, i);
    if i > 0 {
      RunCloses(w, init, states, labels, i - 1);
      assert StepAt(w, states, labels, i - 1);
      StepCloses(w, init, states[i - 1], labels[i - 1], states[i]);
    }
  }
}
