/**
 Runs of the streaming system: one orchestrator and any number of workers that
 meet only in the bucket. A step is an orchestrator tick, a restart with or without
 resume, a worker picking up a job, one output landing in the bucket, one output
 entering a worker's cache, or a worker losing its caches and unfinished uploads.
 */
module StreamingRuns {
  import opened Common
  import opened Pipeline
  import opened Dataflow
  import opened StreamingOrch
  import opened WorkerCache

  datatype Caches = Caches(outs: Cache, ins: Cache)

  /** An output computed by a worker: on its way to the bucket, or landed there. */
  datatype Flight = Flight(worker: WorkerId, uri: Uri, value: Value, landed: bool)

  /** `clock` is the time of the latest tick or pickup: it never runs back. */
  datatype State = State(orch: Orch, bucket: Store, caches: map<WorkerId, Caches>, flights: set<Flight>, clock: int)

  datatype World = World(cfg: Config, knobs: Knobs, size: Value -> nat, outLimit: nat, inLimit: nat)

  datatype Label =
    | OrchTick(infos: seq<WorkerInfo>, now: int, graceOver: bool)
    | OrchResume(e: nat)
    | Pickup(worker: WorkerId, id: JobId, now: int, fetched: seq<Uri>)
    | Land(flight: Flight)
    | CacheOutput(flight: Flight)
    | WorkerRestart(worker: WorkerId)

  function CachesOf(w: World, s: State, wk: WorkerId): Caches
  {
    if wk in s.caches then s.caches[wk] else Caches(Empty(w.outLimit), Empty(w.inLimit))
  }

  function CachedKeys(c: Caches): set<Uri> { c.outs.entries.Keys + c.ins.entries.Keys }

  /** Output cache, then input cache, then the bucket. */
  function Read(c: Caches, bucket: Store, u: Uri): Value
    requires u in bucket
  {
    if u in c.outs.entries then c.outs.entries[u] else if u in c.ins.entries then c.ins.entries[u] else bucket[u]
  }

  function ReadAll(c: Caches, bucket: Store): Store { map u | u in bucket :: Read(c, bucket, u) }

  /** The dictionary that a worker evaluates a job on. */
  ghost function WorkerInputs(w: World, s: State, wk: WorkerId, t: Task): map<Name, Value>
    requires InputsPresent(t, s.bucket)
  {
    Gather(FetchOrder(t.inputs, CachedKeys(CachesOf(w, s, wk))), ReadAll(CachesOf(w, s, wk), s.bucket))
  }

  predicate MayPickup(s: State, wk: WorkerId, id: JobId, now: int)
  {
    && id in s.orch.manifests
    && s.orch.manifests[id].assignee == wk
    && !OutputsPresent(s.orch.manifests[id].task, s.bucket)
    && InputsPresent(s.orch.manifests[id].task, s.bucket)
    && (s.orch.manifests[id].deadline != 0 ==> now <= s.orch.manifests[id].deadline)
  }

  predicate Cacheable(u: Uri) { u.Weights? || u.StaticBlob? }

  function Pairs(us: seq<Uri>, bucket: Store): seq<(Uri, Value)>
    requires forall u :: u in us ==> u in bucket
  {
    seq(|us|, i requires 0 <= i < |us| => (us[i], bucket[us[i]]))
  }

  /** Cache misses of cacheable inputs, in the order their downloads finish. */
  ghost predicate Downloads(w: World, s: State, wk: WorkerId, t: Task, us: seq<Uri>)
  {
    forall u :: u in us ==> Cacheable(u) && Reads(t, u) && u in s.bucket && u !in CachedKeys(CachesOf(w, s, wk))
  }

  /** Outputs that a worker has computed and not yet uploaded. */
  function Uploads(wk: WorkerId, puts: Store): set<Flight> { set u | u in puts :: Flight(wk, u, puts[u], false) }

  ghost predicate Next(w: World, s: State, l: Label, s': State)
    requires |w.cfg.stages| > 0
  {
    match l
    case OrchTick(infos, now, graceOver) =>
      && s.clock <= now
      && s' == s.(orch := Tick(w.cfg, w.knobs, s.orch, s.bucket, infos, now, graceOver), clock := now)
    case OrchResume(e) =>
      && Resume(w.cfg, s.orch, s.bucket, e).Some?
      && s' == s.(orch := Resume(w.cfg, s.orch, s.bucket, e).value)
    case Pickup(wk, id, now, fetched) =>
      && s.clock <= now
      && MayPickup(s, wk, id, now)
      && var t := s.orch.manifests[id].task;
      && Downloads(w, s, wk, t, fetched)
      && var c := CachesOf(w, s, wk);
      && var puts := Outcome(w.cfg, t, WorkerInputs(w, s, wk, t));
      && s' == s.(caches := s.caches[wk := c.(ins := InsertAll(c.ins, Pairs(fetched, s.bucket), w.size))],
                  flights := s.flights + Uploads(wk, puts), clock := now)
    case Land(f) =>
      && f in s.flights && !f.landed
      && s' == s.(bucket := s.bucket[f.uri := f.value], flights := s.flights - {f} + {f.(landed := true)})
    case CacheOutput(f) =>
      && f in s.flights && f.landed && !f.uri.DoneMark?
      && var c := CachesOf(w, s, f.worker);
      && s' == s.(caches := s.caches[f.worker := c.(outs := Insert(c.outs, f.uri, f.value, w.size))],
                  flights := s.flights - {f})
    case WorkerRestart(wk) =>
      s' == s.(caches := s.caches - {wk}, flights := set f | f in s.flights && f.worker != wk)
  }

  ghost predicate Init(s: State, init: Store)
  {
    s == State(Orch(map[], {}, 0, [], map[], {}, map[]), init, map[], {}, s.clock)
  }

  ghost predicate StepAt(w: World, states: seq<State>, labels: seq<Label>, i: int)
    requires |w.cfg.stages| > 0 && |states| == |labels| + 1 && 0 <= i < |labels|
  {
    Next(w, states[i], labels[i], states[i + 1])
  }

  ghost predicate ValidRun(w: World, init: Store, states: seq<State>, labels: seq<Label>)
  {
    && |w.cfg.stages| > 0
    && |states| == |labels| + 1
    && Init(states[0], init)
    && forall i {:trigger StepAt(w, states, labels, i)} :: 0 <= i < |labels| ==> StepAt(w, states, labels, i)
  }

  // ------------------------------------------------------------------------
  // What a tick does to the orchestrator's state
  // ------------------------------------------------------------------------

  lemma EpochIdsDistinct(cfg: Config, e: nat)
    ensures Distinct(TaskIds(EpochTasks(cfg, e)))
  {
    var ts := EpochTasks(cfg, e);
    EpochAscends(cfg, e);
    forall i, j | 0 <= i < j < |ts| ensures TaskIds(ts)[i] != TaskIds(ts)[j] {
      assert KeyLess(KeyOf(ts[i].id), KeyOf(ts[j].id));
    }
  }

  /** The manifests are exactly the jobs of the emitted epochs, each with a task as its id names it. */
  ghost predicate ManifestsOk(cfg: Config, o: Orch)
  {
    && (forall id :: id in o.manifests <==> Emits(cfg, id) && id.epoch in o.emitted)
    && (forall id :: id in o.manifests ==> o.manifests[id].task == TaskOf(cfg, id))
  }

  ghost predicate AttemptsOk(k: Knobs, o: Orch)
  {
    forall id :: id in o.manifests ==> Attempts(o.retried, id) <= (if k.maxRetries > 0 then k.maxRetries else 0)
  }

  /** Retry state exists only for jobs that have a manifest. */
  ghost predicate RetriedOk(o: Orch) { forall id :: id in o.retried ==> id in o.manifests }

  lemma RetryFacts(cfg: Config, k: Knobs, o: Orch, bucket: Store, table: seq<seq<WorkerId>>, now: int)
    returns (changed: set<JobId>)
    ensures var o' := Retry(cfg, k, o, bucket, table, now);
            var before, after := Scan(o.manifests, o.retried, o.evicted, 0),
              Scan(o'.manifests, o'.retried, o'.evicted, 0);
            && o.evicted <= o'.evicted
            && o' == o.(manifests := o'.manifests, retried := o'.retried, evicted := o'.evicted)
            && (forall id :: id in changed ==> Reassigned(k, table, before, after, id))
            && (forall id :: id !in changed ==> Untouched(before, after, id))
            && |changed| <= if k.maxPerTick >= 1 then k.maxPerTick else 1
  {
    changed := {};
    if RetryDue(k, o, now) {
      var ids := TaskIds(EpochTasks(cfg, o.cursor));
      EpochIdsDistinct(cfg, o.cursor);
      var sc := Scan(o.manifests, o.retried, o.evicted, 0);
      changed := RetryScanSpec(k, sc, bucket, table, now, ids);
      RetryScanCap(k, sc, bucket, table, now, ids);
    }
  }
}
