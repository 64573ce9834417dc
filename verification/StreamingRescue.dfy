/**
 When workers and the orchestrator together can still finish an epoch. Workers store what is on its way and
 what jobs in time can make of it; for the rest the epoch waits for the first tick that retries, and then a job
 must still be in time or have an attempt left.
 */
module StreamingRescue {
  import opened Common
  import opened Pipeline
  import opened Dataflow
  import opened StreamingOrch
  import opened WorkerCache
  import opened StreamingRuns
  import opened StreamingTheorems
  import opened StreamingProgress
  import opened StreamingBounds
  import opened StreamingFinish

  // ------------------------------------------------------------------------
  // Runs of workers and ticks
  // ------------------------------------------------------------------------

  /** A valid run that goes on from `states` with steps of workers and ticks of the orchestrator. */
  ghost predicate Goes(w: World, init: Store, states: seq<State>, labels: seq<Label>,
                       states': seq<State>, labels': seq<Label>)
  {
    && ValidRun(w, init, states, labels) && ValidRun(w, init, states', labels')
    && states <= states' && labels <= labels'
    && forall i :: |labels| <= i < |labels'| ==> !labels'[i].OrchResume?
  }

  lemma WorkersGo(w: World, init: Store, states: seq<State>, labels: seq<Label>, states': seq<State>,
                  labels': seq<Label>)
    requires Continues(w, init, states, labels, states', labels')
    ensures Goes(w, init, states, labels, states', labels')
  {
    forall i | |labels| <= i < |labels'| ensures !labels'[i].OrchResume? {
      assert ByWorker(labels'[i]);
    }
  }

  lemma GoesFurther(w: World, init: Store, a: seq<State>, la: seq<Label>, b: seq<State>, lb: seq<Label>,
                    c: seq<State>, lc: seq<Label>)
    requires Goes(w, init, a, la, b, lb) && Goes(w, init, b, lb, c, lc)
    ensures Goes(w, init, a, la, c, lc)
  {
    forall i | |la| <= i < |lc| ensures !lc[i].OrchResume? {
      if i < |lb| {
        assert lc[i] == lb[i];
      }
    }
  }

  lemma TickGoes(w: World, init: Store, states: seq<State>, labels: seq<Label>, l: Label, s: State)
    requires ValidRun(w, init, states, labels) && l.OrchTick? && Next(w, Last(states), l, s)
    ensures Goes(w, init, states, labels, states + [s], labels + [l])
  {
    ExtendRun(w, init, states, labels, l, s);
  }

  // ------------------------------------------------------------------------
  // The condition
  // ------------------------------------------------------------------------

  /** Stored, or on its way. */
  ghost predicate OnHand(s: State, u: Uri) { u in s.bucket || InFlight(s, u) }

  ghost function HandFrom(s: State, outs: set<Uri>): set<Uri> { set u | u in outs && OnHand(s, u) }

  /** What the job reads of `outs` is in `have`. */
  ghost predicate Fed(t: Task, outs: set<Uri>, have: set<Uri>)
  {
    forall r :: r in t.inputs && r.uri in outs ==> r.uri in have
  }

  predicate InTime(s: State, id: JobId) { id in s.orch.manifests && !Expired(s, id) }

  /** Of `outs`, what is on hand, and what the first `n` jobs that are in time make of it one after the other. */
  ghost function Soon(s: State, ts: seq<Task>, outs: set<Uri>, n: nat): set<Uri>
    requires n <= |ts|
  {
    if n == 0 then HandFrom(s, outs)
    else
      var t, before := ts[n - 1], Soon(s, ts, outs, n - 1);
      if InTime(s, t.id) && Fed(t, outs, before) then before + RefUris(t.outputs) else before
  }

  /** What workers can still store of the epoch in flight before any job is retried. */
  ghost function Obtainable(cfg: Config, s: State): set<Uri>
  {
    var ts := EpochTasks(cfg, s.orch.cursor);
    Soon(s, ts, OutputsOf(ts), |ts|)
  }

  /** The earliest time at which a tick retries jobs of the epoch in flight; never, once its start is lost. */
  function RetryTime(k: Knobs, s: State): Option<int>
  {
    var e := s.orch.cursor;
    if e in s.orch.startedAt then Some(Later(s.clock, s.orch.startedAt[e] + k.retryAfter))
    else if k.retryAfter <= 0 then Some(s.clock) else None
  }

  function Later(a: int, b: int): int { if a >= b then a else b }

  predicate Past(m: Manifest, now: int) { m.deadline != 0 && m.deadline < now }

  /** At that time the job is still in time, or has an attempt left. */
  predicate Savable(w: World, s: State, id: JobId)
  {
    && RetryTime(w.knobs, s).Some? && id in s.orch.manifests
    && (!Past(s.orch.manifests[id], RetryTime(w.knobs, s).value) || Attempts(s.orch.retried, id) < w.knobs.maxRetries)
  }

  /** Every needed output can be had before the first retry, or its job can be saved then. */
  ghost predicate Rescuable(w: World, s: State)
  {
    var e := s.orch.cursor;
    forall id, u {:trigger Wants(w.cfg, e, NeededOutputs(w.cfg, e), id, u)} ::
      Wants(w.cfg, e, NeededOutputs(w.cfg, e), id, u) && u !in Obtainable(w.cfg, s) ==> Savable(w, s, id)
  }

  // ------------------------------------------------------------------------
  // Nothing more can be had before the first retry
  // ------------------------------------------------------------------------

  lemma {:induction false} SoonGrows(s: State, ts: seq<Task>, outs: set<Uri>, i: nat, n: nat)
    requires i <= n <= |ts|
    ensures Soon(s, ts, outs, i) <= Soon(s, ts, outs, n)
    decreases n
  {
    if i < n {
      SoonGrows(s, ts, outs, i, n - 1);
    }
  }

  lemma {:induction false} SoonFrom(s: State, ts: seq<Task>, outs: set<Uri>, n: nat, u: Uri) returns (j: nat)
    requires n <= |ts| && u in Soon(s, ts, outs, n)
    ensures u in HandFrom(s, outs) || (j < n && Writes(ts[j], u) && u in Soon(s, ts, outs, j + 1))
    decreases n
  {
    j := 0;
    if n > 0 {
      if u in Soon(s, ts, outs, n - 1) {
        j := SoonFrom(s, ts, outs, n - 1, u);
      } else {
        j := n - 1;
        RefUrisHaveRef(ts[n - 1].outputs, u);
      }
    }
  }

  /** A job's writers come before it in the order of emission. */
  lemma WriterBefore(cfg: Config, e: nat, i: nat, j: nat, r: IORef)
    requires i < |EpochTasks(cfg, e)| && j < |EpochTasks(cfg, e)|
    requires r in EpochTasks(cfg, e)[i].inputs && Writes(EpochTasks(cfg, e)[j], r.uri)
    ensures j < i
  {
    var ts := EpochTasks(cfg, e);
    EpochMembers(cfg, e, ts[i]);
    EpochMembers(cfg, e, ts[j]);
    TaskWiring(cfg, ts[j].id, r.uri);
    assert Reads(ts[i], r.uri);
    TaskWiring(cfg, ts[i].id, r.uri);
    EpochAscends(cfg, e);
    assert i < j ==> KeyLess(KeyOf(ts[i].id), KeyOf(ts[j].id));
  }

  lemma FedInTime(cfg: Config, s: State, i: nat, ts: seq<Task>, outs: set<Uri>)
    requires ts == EpochTasks(cfg, s.orch.cursor) && i < |ts| && Fed(ts[i], outs, Soon(s, ts, outs, |ts|))
    ensures Fed(ts[i], outs, Soon(s, ts, outs, i))
  {
    forall r | r in ts[i].inputs && r.uri in outs ensures r.uri in Soon(s, ts, outs, i) {
      InputInTime(cfg, s, i, ts, outs, r);
    }
  }

  lemma InputInTime(cfg: Config, s: State, i: nat, ts: seq<Task>, outs: set<Uri>, r: IORef)
    requires ts == EpochTasks(cfg, s.orch.cursor) && i < |ts| && r in ts[i].inputs
    requires r.uri in Soon(s, ts, outs, |ts|)
    ensures r.uri in Soon(s, ts, outs, i)
  {
    var j := SoonFrom(s, ts, outs, |ts|, r.uri);
    if r.uri in HandFrom(s, outs) {
      SoonGrows(s, ts, outs, 0, i);
    } else {
      WriterBefore(cfg, s.orch.cursor, i, j, r);
      SoonGrows(s, ts, outs, j + 1, i);
    }
  }

  lemma SoonAfter(s: State, ts: seq<Task>, outs: set<Uri>, i: nat, u: Uri)
    requires i < |ts| && InTime(s, ts[i].id) && Fed(ts[i], outs, Soon(s, ts, outs, i)) && Writes(ts[i], u)
    ensures u in Soon(s, ts, outs, |ts|)
  {
    var o :| o in ts[i].outputs && o.uri == u;
    RefUrisMember(ts[i].outputs, o);
    SoonGrows(s, ts, outs, i + 1, |ts|);
  }

  lemma InEpoch(cfg: Config, e: nat, id: JobId, ts: seq<Task>) returns (i: nat)
    requires Emits(cfg, id) && id.epoch == e && ts == EpochTasks(cfg, e)
    ensures i < |ts| && ts[i] == TaskOf(cfg, id) && ts[i].id == id
  {
    EpochMembers(cfg, e, TaskOf(cfg, id));
    i :| 0 <= i < |ts| && ts[i] == TaskOf(cfg, id);
  }

  /** A job in time whose inputs can be had makes nothing but what can be had. */
  lemma ObtainableCloses(cfg: Config, s: State, id: JobId, u: Uri)
    requires Emits(cfg, id) && id.epoch == s.orch.cursor && InTime(s, id) && Writes(TaskOf(cfg, id), u)
    requires Fed(TaskOf(cfg, id), OutputsOf(EpochTasks(cfg, s.orch.cursor)), Obtainable(cfg, s))
    ensures u in Obtainable(cfg, s)
  {
    var ts := EpochTasks(cfg, s.orch.cursor);
    var i := InEpoch(cfg, s.orch.cursor, id, ts);
    FedInTime(cfg, s, i, ts, OutputsOf(ts));
    SoonAfter(s, ts, OutputsOf(ts), i, u);
  }

  /** The time of the first retry has come. */
  predicate Late(w: World, s0: State, now: int)
  {
    RetryTime(w.knobs, s0).Some? && now >= RetryTime(w.knobs, s0).value
  }

  /** The needed output can neither be had before the first retry nor can its job be saved then. */
  ghost predicate Lost(w: World, s0: State, id: JobId, u: Uri)
  {
    && Wants(w.cfg, s0.orch.cursor, NeededOutputs(w.cfg, s0.orch.cursor), id, u)
    && s0.orch.cursor in s0.orch.emitted && id in s0.orch.manifests
    && u !in Obtainable(w.cfg, s0) && !Savable(w, s0, id)
  }

  /** Since `s0` the epoch and its start are the same, and so is the job. */
  ghost predicate SameJob(s0: State, s: State, id: JobId)
  {
    && s.orch.cursor == s0.orch.cursor && s.orch.cursor in s.orch.emitted && s.orch.startedAt == s0.orch.startedAt
    && id in s0.orch.manifests && id in s.orch.manifests && s.orch.manifests[id] == s0.orch.manifests[id]
    && Attempts(s.orch.retried, id) == Attempts(s0.orch.retried, id) && s0.clock <= s.clock
  }

  /** Before the first retry nothing is on hand but what could be had. */
  ghost predicate NothingNew(w: World, s0: State, s: State)
  {
    s.orch == s0.orch && HandFrom(s, OutputsOf(EpochTasks(w.cfg, s0.orch.cursor))) <= Obtainable(w.cfg, s0)
  }

  ghost predicate StillLost(w: World, s0: State, s: State, id: JobId, u: Uri)
  {
    Lost(w, s0, id, u) && SameJob(s0, s, id) && !OnHand(s, u) && (!Late(w, s0, s.clock) ==> NothingNew(w, s0, s))
  }

  lemma LostStarts(w: World, s0: State, id: JobId, u: Uri)
    requires Lost(w, s0, id, u)
    ensures StillLost(w, s0, s0, id, u)
  {
    var ts := EpochTasks(w.cfg, s0.orch.cursor);
    SoonGrows(s0, ts, OutputsOf(ts), 0, |ts|);
    var o :| o in TaskOf(w.cfg, id).outputs && o.uri == u;
    EpochMembers(w.cfg, s0.orch.cursor, TaskOf(w.cfg, id));
    OutputsMember(ts, TaskOf(w.cfg, id), o);
  }

  lemma LostIsNotDone(w: World, init: Store, s0: State, s: State, id: JobId, u: Uri)
    requires WellWired(w.cfg, init) && AllSupported(w.cfg, init, s.bucket) && StillLost(w, s0, s, id, u)
    ensures !EpochDone(w.cfg, s.bucket, s0.orch.cursor)
  {
    DoneIffStored(w.cfg, init, s.bucket, s0.orch.cursor);
  }

  /** A tick that finds the epoch emitted and not done changes what its retries change. */
  lemma TickIsRetry(w: World, o: Orch, bucket: Store, infos: seq<WorkerInfo>, now: int, graceOver: bool)
    requires |w.cfg.stages| > 0 && o.cursor in o.emitted && !EpochDone(w.cfg, bucket, o.cursor)
    ensures var o' := Tick(w.cfg, w.knobs, o, bucket, infos, now, graceOver);
            o' == o || o' == Retry(w.cfg, w.knobs, o, bucket, StageTable(|w.cfg.stages|, infos, o.evicted, now), now)
  {
  }

  lemma NoAttemptNoChange(w: World, o: Orch, bucket: Store, table: seq<seq<WorkerId>>, now: int, id: JobId)
    requires id in o.manifests && Attempts(o.retried, id) >= w.knobs.maxRetries
    ensures var o' := Retry(w.cfg, w.knobs, o, bucket, table, now);
            && id in o'.manifests && o'.manifests[id] == o.manifests[id]
            && Attempts(o'.retried, id) == Attempts(o.retried, id)
  {
    var o' := Retry(w.cfg, w.knobs, o, bucket, table, now);
    var before, after := Scan(o.manifests, o.retried, o.evicted, 0), Scan(o'.manifests, o'.retried, o'.evicted, 0);
    var changed := RetryFacts(w.cfg, w.knobs, o, bucket, table, now);
    assert id in changed ==> Reassigned(w.knobs, table, before, after, id);
    assert Untouched(before, after, id);
  }

  lemma DueIsLate(w: World, s0: State, s: State, id: JobId, now: int)
    requires SameJob(s0, s, id) && s.clock <= now && RetryDue(w.knobs, s.orch, now)
    ensures Late(w, s0, now)
  {
  }

  lemma TickKeepsJob(w: World, s: State, l: Label, s': State, id: JobId)
    requires |w.cfg.stages| > 0 && l.OrchTick? && Next(w, s, l, s') && s.orch.cursor in s.orch.emitted
    requires !EpochDone(w.cfg, s.bucket, s.orch.cursor) && id in s.orch.manifests
    requires RetryDue(w.knobs, s.orch, l.now) ==> Attempts(s.orch.retried, id) >= w.knobs.maxRetries
    ensures SameJob(s, s', id) && s'.bucket == s.bucket && s'.flights == s.flights && s'.clock == l.now
    ensures !RetryDue(w.knobs, s.orch, l.now) ==> s'.orch == s.orch
  {
    TickIsRetry(w, s.orch, s.bucket, l.infos, l.now, l.graceOver);
    if RetryDue(w.knobs, s.orch, l.now) {
      var table := StageTable(|w.cfg.stages|, l.infos, s.orch.evicted, l.now);
      NoAttemptNoChange(w, s.orch, s.bucket, table, l.now, id);
    }
  }

  lemma SameJobTwice(s0: State, s: State, s': State, id: JobId)
    requires SameJob(s0, s, id) && SameJob(s, s', id)
    ensures SameJob(s0, s', id)
  {
  }

  lemma LateIsUsedUp(w: World, s0: State, id: JobId, u: Uri, now: int)
    requires Lost(w, s0, id, u) && Late(w, s0, now)
    ensures Attempts(s0.orch.retried, id) >= w.knobs.maxRetries
    ensures Past(s0.orch.manifests[id], now)
  {
  }

  lemma SameHand(w: World, s0: State, s: State, s': State)
    requires NothingNew(w, s0, s) && s'.orch == s.orch && s'.bucket == s.bucket && s'.flights == s.flights
    ensures NothingNew(w, s0, s')
  {
    var outs := OutputsOf(EpochTasks(w.cfg, s0.orch.cursor));
    assert HandFrom(s', outs) == HandFrom(s, outs);
  }

  lemma TickStaysLost(w: World, s0: State, s: State, l: Label, s': State, id: JobId, u: Uri)
    requires |w.cfg.stages| > 0 && l.OrchTick? && Next(w, s, l, s') && StillLost(w, s0, s, id, u)
    requires !EpochDone(w.cfg, s.bucket, s.orch.cursor)
    ensures StillLost(w, s0, s', id, u)
  {
    if RetryDue(w.knobs, s.orch, l.now) {
      DueIsLate(w, s0, s, id, l.now);
      LateIsUsedUp(w, s0, id, u, l.now);
    }
    TickKeepsJob(w, s, l, s', id);
    SameJobTwice(s0, s, s', id);
    if !Late(w, s0, l.now) {
      SameHand(w, s0, s, s');
    }
  }

  /** What a pickup puts on its way is written by its job. */
  lemma PickupHands(w: World, s: State, l: Label, s': State, u: Uri)
    requires |w.cfg.stages| > 0 && l.Pickup? && Next(w, s, l, s') && ManifestsOk(w.cfg, s.orch)
    requires OnHand(s', u) && !OnHand(s, u)
    ensures Writes(TaskOf(w.cfg, l.id), u)
  {
    var f :| f in s'.flights && !f.landed && f.uri == u;
    assert f !in s.flights;
  }

  lemma PickupFed(w: World, s0: State, s: State, t: Task)
    requires InputsPresent(t, s.bucket) && NothingNew(w, s0, s)
    ensures Fed(t, OutputsOf(EpochTasks(w.cfg, s0.orch.cursor)), Obtainable(w.cfg, s0))
  {
    var outs := OutputsOf(EpochTasks(w.cfg, s0.orch.cursor));
    forall r | r in t.inputs && r.uri in outs ensures r.uri in Obtainable(w.cfg, s0) {
      assert r.uri in HandFrom(s, outs);
    }
  }

  lemma OutputOfEpoch(cfg: Config, e: nat, id: JobId, u: Uri)
    requires u in OutputsOf(EpochTasks(cfg, e)) && id.stage < |cfg.stages| && Writes(TaskOf(cfg, id), u)
    ensures id.epoch == e
  {
    var i := OutputsHaveWriter(EpochTasks(cfg, e), u);
    EpochMembers(cfg, e, EpochTasks(cfg, e)[i]);
    OneWriter(cfg, id, EpochTasks(cfg, e)[i].id, u);
  }

  lemma PickupNothingNew(w: World, s0: State, s: State, l: Label, s': State)
    requires |w.cfg.stages| > 0 && l.Pickup? && Next(w, s, l, s') && ManifestsOk(w.cfg, s.orch)
    requires s0.clock <= s.clock && NothingNew(w, s0, s)
    ensures NothingNew(w, s0, s')
  {
    var outs := OutputsOf(EpochTasks(w.cfg, s0.orch.cursor));
    forall x | x in HandFrom(s', outs) ensures x in Obtainable(w.cfg, s0) {
      if !OnHand(s, x) {
        PickupHands(w, s, l, s', x);
        OutputOfEpoch(w.cfg, s0.orch.cursor, l.id, x);
        PickupFed(w, s0, s, TaskOf(w.cfg, l.id));
        ObtainableCloses(w.cfg, s0, l.id, x);
      } else {
        assert x in HandFrom(s, outs);
      }
    }
  }

  lemma PickupStaysLost(w: World, s0: State, s: State, l: Label, s': State, id: JobId, u: Uri)
    requires |w.cfg.stages| > 0 && l.Pickup? && Next(w, s, l, s') && ManifestsOk(w.cfg, s.orch)
    requires StillLost(w, s0, s, id, u)
    ensures StillLost(w, s0, s', id, u)
  {
    if !Late(w, s0, l.now) {
      PickupNothingNew(w, s0, s, l, s');
    }
    if OnHand(s', u) {
      PickupHands(w, s, l, s', u);
      OneWriter(w.cfg, l.id, id, u);
      LostNeverPicked(w, s0, s, l, s', id, u);
    }
  }

  lemma LostNeverPicked(w: World, s0: State, s: State, l: Label, s': State, id: JobId, u: Uri)
    requires |w.cfg.stages| > 0 && l.Pickup? && Next(w, s, l, s') && ManifestsOk(w.cfg, s.orch)
    requires StillLost(w, s0, s, id, u)
    ensures l.id != id
  {
    if l.id == id && !Late(w, s0, l.now) {
      PickupFed(w, s0, s, TaskOf(w.cfg, id));
      ObtainableCloses(w.cfg, s0, id, u);
    }
  }

  /** The other steps of workers bring nothing new on hand. */
  lemma OtherStaysLost(w: World, s0: State, s: State, l: Label, s': State, id: JobId, u: Uri)
    requires |w.cfg.stages| > 0 && (l.Land? || l.CacheOutput? || l.WorkerRestart?) && Next(w, s, l, s')
    requires StillLost(w, s0, s, id, u)
    ensures StillLost(w, s0, s', id, u)
  {
    forall x ensures OnHand(s', x) ==> OnHand(s, x) {
      if l.Land? && OnHand(s', x) {
        assert InFlight(s, l.flight.uri);
      }
    }
    var outs := OutputsOf(EpochTasks(w.cfg, s0.orch.cursor));
    assert HandFrom(s', outs) <= HandFrom(s, outs);
  }

  lemma LostNext(w: World, s0: State, s: State, l: Label, s': State, id: JobId, u: Uri)
    requires |w.cfg.stages| > 0 && Next(w, s, l, s') && ManifestsOk(w.cfg, s.orch) && !l.OrchResume?
    requires StillLost(w, s0, s, id, u) && !EpochDone(w.cfg, s.bucket, s.orch.cursor)
    ensures StillLost(w, s0, s', id, u)
  {
    if l.OrchTick? {
      TickStaysLost(w, s0, s, l, s', id, u);
    } else if l.Pickup? {
      PickupStaysLost(w, s0, s, l, s', id, u);
    } else {
      OtherStaysLost(w, s0, s, l, s', id, u);
    }
  }

  lemma LostStep(w: World, init: Store, s0: State, states: seq<State>, labels: seq<Label>, j: nat, id: JobId, u: Uri)
    requires ValidRun(w, init, states, labels) && j < |labels| && WellWired(w.cfg, init) && !labels[j].OrchResume?
    requires StillLost(w, s0, states[j], id, u)
    ensures StillLost(w, s0, states[j + 1], id, u)
  {
    RunCloses(w, init, states, labels, j);
    LostIsNotDone(w, init, s0, states[j], id, u);
    assert StepAt(w, states, labels, j);
    LostNext(w, s0, states[j], labels[j], states[j + 1], id, u);
  }

  /** What is lost stays lost. */
  lemma {:induction false} LostForEver(w: World, init: Store, states: seq<State>, labels: seq<Label>, i: nat, j: nat,
                                       id: JobId, u: Uri)
    requires ValidRun(w, init, states, labels) && i <= j < |states| && WellWired(w.cfg, init)
    requires Lost(w, states[i], id, u) && forall m :: i <= m < j ==> !labels[m].OrchResume?
    ensures StillLost(w, states[i], states[j], id, u)
    decreases j
  {
    if i == j {
      LostStarts(w, states[i], id, u);
    } else {
      LostForEver(w, init, states, labels, i, j - 1, id, u);
      LostStep(w, init, states[i], states, labels, j - 1, id, u);
    }
  }

  lemma LostNotDone(w: World, init: Store, states: seq<State>, labels: seq<Label>, i: nat, j: nat, id: JobId, u: Uri)
    requires ValidRun(w, init, states, labels) && i <= j < |states| && WellWired(w.cfg, init)
    requires Lost(w, states[i], id, u) && forall m :: i <= m < j ==> !labels[m].OrchResume?
    ensures !EpochDone(w.cfg, states[j].bucket, states[i].orch.cursor)
  {
    LostForEver(w, init, states, labels, i, j, id, u);
    RunCloses(w, init, states, labels, j);
    LostIsNotDone(w, init, states[i], states[j], id, u);
  }

  // ------------------------------------------------------------------------
  // What can be had before the first retry
  // ------------------------------------------------------------------------

  lemma AheadTwice(a: State, b: State, c: State)
    requires Ahead(a, b) && Ahead(b, c)
    ensures Ahead(a, c)
  {
  }

  /** Everything on its way can land. */
  lemma LandHand(w: World, init: Store, states: seq<State>, labels: seq<Label>, outs: set<Uri>)
    returns (states': seq<State>, labels': seq<Label>)
    requires ValidRun(w, init, states, labels)
    ensures Continues(w, init, states, labels, states', labels') && Ahead(Last(states), Last(states'))
    ensures HandFrom(Last(states), outs) <= Last(states').bucket.Keys
  {
    var s := Last(states);
    states', labels' := LandAll(w, init, states, labels, set f | f in s.flights && !f.landed);
    forall u | u in HandFrom(s, outs) ensures u in Last(states').bucket {
      if u !in s.bucket {
        var f :| f in s.flights && !f.landed && f.uri == u;
      }
    }
  }

  /** A job of the epoch has its inputs once those that the epoch makes are stored. */
  lemma FedInputsPresent(w: World, init: Store, bucket: Store, e: nat, i: nat, outs: set<Uri>, have: set<Uri>)
    requires WellWired(w.cfg, init) && outs == OutputsOf(EpochTasks(w.cfg, e)) && i < |EpochTasks(w.cfg, e)|
    requires NothingLost(init, bucket) && (w.cfg.training ==> WeightsReady(w.cfg, bucket, e))
    requires Fed(EpochTasks(w.cfg, e)[i], outs, have) && have <= bucket.Keys
    ensures InputsPresent(EpochTasks(w.cfg, e)[i], bucket)
  {
    var ts := EpochTasks(w.cfg, e);
    var id := ts[i].id;
    EpochMembers(w.cfg, e, ts[i]);
    forall r | r in ts[i].inputs ensures r.uri in bucket {
      InputSupplied(w.cfg, init, id, r);
      if r.uri !in init && !(r.uri == Weights(id.epoch, id.stage) && w.cfg.training) {
        var p :| Emits(w.cfg, p) && p.epoch == e && KeyLess(KeyOf(p), KeyOf(id)) && Writes(TaskOf(w.cfg, p), r.uri);
        var j := EarlierIsBefore(w.cfg, e, i, p);
        var o :| o in ts[j].outputs && o.uri == r.uri;
        OutputsMember(ts, ts[j], o);
      }
    }
  }

  lemma {:induction false} RefUrisStored(refs: seq<IORef>, bucket: Store)
    requires forall o :: o in refs ==> o.uri in bucket
    ensures RefUris(refs) <= bucket.Keys
  {
    if |refs| > 0 {
      RefUrisStored(refs[..|refs| - 1], bucket);
    }
  }

  lemma ReadyToRun(w: World, init: Store, states: seq<State>, labels: seq<Label>, ts: seq<Task>, i: nat, have: set<Uri>)
    requires ValidRun(w, init, states, labels) && WellWired(w.cfg, init)
    requires ts == EpochTasks(w.cfg, Last(states).orch.cursor) && i < |ts| && have <= Last(states).bucket.Keys
    requires Fed(ts[i], OutputsOf(ts), have)
    ensures Emits(w.cfg, ts[i].id) && ts[i] == TaskOf(w.cfg, ts[i].id) && InputsPresent(ts[i], Last(states).bucket)
  {
    var s := Last(states);
    RunCloses(w, init, states, labels, |states| - 1);
    EpochMembers(w.cfg, s.orch.cursor, ts[i]);
    FedInputsPresent(w, init, s.bucket, s.orch.cursor, i, OutputsOf(ts), have);
  }

  lemma StoreOne(w: World, init: Store, states: seq<State>, labels: seq<Label>, t: Task)
    returns (states': seq<State>, labels': seq<Label>)
    requires ValidRun(w, init, states, labels) && GraphsTotal(w.cfg) && Emits(w.cfg, t.id) && t == TaskOf(w.cfg, t.id)
    requires InTime(Last(states), t.id) && InputsPresent(t, Last(states).bucket)
    ensures Continues(w, init, states, labels, states', labels') && Ahead(Last(states), Last(states'))
    ensures RefUris(t.outputs) <= Last(states').bucket.Keys
  {
    states', labels' := states, labels;
    if !OutputsPresent(t, Last(states).bucket) {
      states', labels' := StoreMissing(w, init, states, labels, t);
    }
    RefUrisStored(t.outputs, Last(states').bucket);
  }

  lemma StoreMissing(w: World, init: Store, states: seq<State>, labels: seq<Label>, t: Task)
    returns (states': seq<State>, labels': seq<Label>)
    requires ValidRun(w, init, states, labels) && GraphsTotal(w.cfg) && Emits(w.cfg, t.id) && t == TaskOf(w.cfg, t.id)
    requires InTime(Last(states), t.id)
    requires InputsPresent(t, Last(states).bucket) && !OutputsPresent(t, Last(states).bucket)
    ensures Continues(w, init, states, labels, states', labels') && Ahead(Last(states), Last(states'))
    ensures OutputsPresent(t, Last(states').bucket)
  {
    RunOrch(w, init, states, labels, |states| - 1, |states| - 1);
    states', labels' := ExecuteFully(w, init, states, labels, t.id);
  }

  /** Workers can store it all. */
  lemma {:induction false} StoreSoon(w: World, init: Store, states: seq<State>, labels: seq<Label>, ts: seq<Task>,
                                     outs: set<Uri>, n: nat)
    returns (states': seq<State>, labels': seq<Label>)
    requires ValidRun(w, init, states, labels) && WellWired(w.cfg, init) && GraphsTotal(w.cfg)
    requires ts == EpochTasks(w.cfg, Last(states).orch.cursor) && outs == OutputsOf(ts) && n <= |ts|
    ensures Continues(w, init, states, labels, states', labels') && Ahead(Last(states), Last(states'))
    ensures Soon(Last(states), ts, outs, n) <= Last(states').bucket.Keys
    decreases n
  {
    var s := Last(states);
    if n == 0 {
      states', labels' := LandHand(w, init, states, labels, outs);
    } else {
      var before := Soon(s, ts, outs, n - 1);
      states', labels' := StoreSoon(w, init, states, labels, ts, outs, n - 1);
      if InTime(s, ts[n - 1].id) && Fed(ts[n - 1], outs, before) {
        var states1, labels1 := states', labels';
        ReadyToRun(w, init, states1, labels1, ts, n - 1, before);
        states', labels' := StoreOne(w, init, states1, labels1, ts[n - 1]);
        ContinuesFurther(w, init, states, labels, states1, labels1, states', labels');
        AheadTwice(s, Last(states1), Last(states'));
      }
    }
  }

  // ------------------------------------------------------------------------
  // The tick that retries
  // ------------------------------------------------------------------------

  lemma {:induction false} Unused(ids: set<WorkerId>) returns (x: WorkerId)
    ensures forall y :: y in ids ==> y < x
  {
    x := 0;
    if ids != {} {
      var y :| y in ids;
      var z := Unused(ids - {y});
      x := if y < z then z else y + 1;
      assert forall v :: v in ids <==> v == y || v in ids - {y};
    }
  }

  /** Worker `x` serves every stage of the table, alone, and has none of the jobs. */
  ghost predicate Newcomer(table: seq<seq<WorkerId>>, ms: map<JobId, Manifest>, x: WorkerId)
  {
    && (forall s, y :: 0 <= s < |table| && y in table[s] ==> y == x)
    && (forall s :: 0 <= s < |table| ==> x in table[s])
    && (forall id :: id in ms ==> ms[id].assignee != x && ms[id].task.id.stage < |table|)
  }

  /** With a newcomer, a job without outputs, with inputs and with an attempt left is retried. */
  lemma RetriedAtOnce(k: Knobs, sc: Scan, bucket: Store, table: seq<seq<WorkerId>>, now: int, id: JobId, x: WorkerId)
    requires Newcomer(table, sc.manifests, x) && Stale(k, sc, bucket, table, id)
    ensures RetryOne(k, sc, bucket, table, now, id).count == sc.count + 1
  {
    var m := sc.manifests[id];
    var others := Filter(table[m.task.id.stage], (y: WorkerId) => y != m.assignee);
    assert x in others;
  }

  lemma {:induction false} CountGrows(k: Knobs, sc: Scan, bucket: Store, table: seq<seq<WorkerId>>, now: int,
                                      ids: seq<JobId>)
    ensures RetryScan(k, sc, bucket, table, now, ids).count >= sc.count
    decreases |ids|
  {
    if |ids| > 0 {
      RetryOneSpec(k, sc, bucket, table, now, ids[0]);
      CountGrows(k, RetryOne(k, sc, bucket, table, now, ids[0]), bucket, table, now, ids[1..]);
    }
  }

  lemma {:induction false} ScanRetries(k: Knobs, sc: Scan, bucket: Store, table: seq<seq<WorkerId>>, now: int,
                                       ids: seq<JobId>, id: JobId, x: WorkerId)
    requires Newcomer(table, sc.manifests, x) && id in ids && Stale(k, sc, bucket, table, id)
    ensures RetryScan(k, sc, bucket, table, now, ids).count > sc.count
    decreases |ids|
  {
    if Stale(k, sc, bucket, table, ids[0]) {
      RetriedAtOnce(k, sc, bucket, table, now, ids[0], x);
      CountGrows(k, RetryOne(k, sc, bucket, table, now, ids[0]), bucket, table, now, ids[1..]);
    } else {
      assert id in ids[1..];
      ScanRetries(k, sc, bucket, table, now, ids[1..], id, x);
    }
  }

  /** A manifest is as it was, or has the deadline of a retry. */
  ghost predicate SameOrRenewed(k: Knobs, now: int, before: map<JobId, Manifest>, after: map<JobId, Manifest>,
                                id: JobId)
  {
    id in before ==> id in after && (after[id] == before[id] || after[id].deadline == now + k.deadlineSec)
  }

  lemma {:induction false} ScanRenews(k: Knobs, sc: Scan, bucket: Store, table: seq<seq<WorkerId>>, now: int,
                                      ids: seq<JobId>, id: JobId)
    ensures SameOrRenewed(k, now, sc.manifests, RetryScan(k, sc, bucket, table, now, ids).manifests, id)
    decreases |ids|
  {
    if |ids| > 0 {
      ScanRenews(k, RetryOne(k, sc, bucket, table, now, ids[0]), bucket, table, now, ids[1..], id);
    }
  }

  /** The attempts that the jobs have left. */
  ghost function AttemptsLeft(k: Knobs, retried: map<JobId, RetryInfo>, ids: seq<JobId>): nat
  {
    if |ids| == 0 then 0
    else
      var left := k.maxRetries - Attempts(retried, ids[0]);
      AttemptsLeft(k, retried, ids[1..]) + if left > 0 then left else 0
  }

  lemma {:induction false} AttemptsShrink(k: Knobs, r: map<JobId, RetryInfo>, r': map<JobId, RetryInfo>,
                                          ids: seq<JobId>)
    requires forall id :: id in ids ==> Attempts(r', id) >= Attempts(r, id)
    ensures AttemptsLeft(k, r', ids) <= AttemptsLeft(k, r, ids)
    ensures (exists id :: id in ids && Attempts(r, id) < Attempts(r', id) <= k.maxRetries) ==>
            AttemptsLeft(k, r', ids) < AttemptsLeft(k, r, ids)
    decreases |ids|
  {
    if |ids| > 0 {
      AttemptsShrink(k, r, r', ids[1..]);
    }
  }

  /** What a retrying tick leaves: the epoch, its start, and every manifest as it was or renewed. */
  ghost predicate Renewed(w: World, now: int, o: Orch, o': Orch)
  {
    && o'.cursor == o.cursor && o'.emitted == o.emitted && o'.startedAt == o.startedAt
    && (forall id :: SameOrRenewed(w.knobs, now, o.manifests, o'.manifests, id))
    && (forall id :: id in o.manifests && id in o'.manifests && o'.manifests[id] == o.manifests[id] ==>
          Attempts(o'.retried, id) == Attempts(o.retried, id))
  }

  /** With a newcomer, a pass retries at least one job when there is one to retry. */
  lemma RetryProgress(w: World, o: Orch, bucket: Store, table: seq<seq<WorkerId>>, now: int, id: JobId, x: WorkerId)
    requires RetryDue(w.knobs, o, now) && Newcomer(table, o.manifests, x) && Emits(w.cfg, id) && id.epoch == o.cursor
    requires Stale(w.knobs, Scan(o.manifests, o.retried, o.evicted, 0), bucket, table, id)
    ensures var o' := Retry(w.cfg, w.knobs, o, bucket, table, now);
            var ids := TaskIds(EpochTasks(w.cfg, o.cursor));
            && Renewed(w, now, o, o')
            && AttemptsLeft(w.knobs, o'.retried, ids) < AttemptsLeft(w.knobs, o.retried, ids)
  {
    var ids, sc := TaskIds(EpochTasks(w.cfg, o.cursor)), Scan(o.manifests, o.retried, o.evicted, 0);
    var r := RetryScan(w.knobs, sc, bucket, table, now, ids);
    EpochIdsDistinct(w.cfg, o.cursor);
    InEpochIds(w.cfg, o.cursor, id);
    var changed := RetryScanSpec(w.knobs, sc, bucket, table, now, ids);
    ScanRetries(w.knobs, sc, bucket, table, now, ids, id, x);
    var c :| c in changed;
    assert Reassigned(w.knobs, table, sc, r, c);
    forall j ensures Attempts(r.retried, j) >= Attempts(sc.retried, j) {
      assert j in changed ==> Reassigned(w.knobs, table, sc, r, j);
      assert j !in changed ==> Untouched(sc, r, j);
    }
    AttemptsShrink(w.knobs, o.retried, r.retried, ids);
    forall j ensures SameOrRenewed(w.knobs, now, o.manifests, r.manifests, j) {
      ScanRenews(w.knobs, sc, bucket, table, now, ids, j);
    }
    forall j | j in o.manifests && j in r.manifests && r.manifests[j] == o.manifests[j]
      ensures Attempts(r.retried, j) == Attempts(o.retried, j)
    {
      assert j in changed ==> Reassigned(w.knobs, table, sc, r, j);
      assert Untouched(sc, r, j);
    }
  }

  lemma InEpochIds(cfg: Config, e: nat, id: JobId)
    requires Emits(cfg, id) && id.epoch == e
    ensures id in TaskIds(EpochTasks(cfg, e))
  {
    var i := InEpoch(cfg, e, id, EpochTasks(cfg, e));
    assert TaskIds(EpochTasks(cfg, e))[i] == id;
  }

  lemma NewcomerComes(w: World, o: Orch, now: int) returns (x: WorkerId)
    requires |w.cfg.stages| > 0 && ManifestsOk(w.cfg, o)
    ensures var table := StageTable(|w.cfg.stages|, [Everywhere(x, |w.cfg.stages|, now)], o.evicted, now);
            Coverage(table) && Newcomer(table, o.manifests, x)
  {
    var n := |w.cfg.stages|;
    var busy := set id | id in o.manifests :: o.manifests[id].assignee;
    x := Unused(o.evicted + busy);
    OneWorkerCovers(x, n, o.evicted, now);
    var table := StageTable(n, [Everywhere(x, n, now)], o.evicted, now);
    forall s | 0 <= s < n ensures x in table[s] {
      InEveryList(x, n, o.evicted, now, s);
    }
    forall s, y | 0 <= s < n && y in table[s] ensures y == x {
      OnlyWorker(x, n, o.evicted, now, s, y);
    }
    forall id | id in o.manifests ensures o.manifests[id].assignee != x {
      assert o.manifests[id].assignee in busy;
    }
  }

  /** When a retry is due, a tick that sees a newcomer retries at least one job. */
  lemma RetryTick(w: World, o: Orch, bucket: Store, now: int, id: JobId) returns (infos: seq<WorkerInfo>)
    requires |w.cfg.stages| > 0 && ManifestsOk(w.cfg, o) && o.cursor < w.cfg.maxEpochs
    requires RetryDue(w.knobs, o, now) && !EpochDone(w.cfg, bucket, o.cursor)
    requires Emits(w.cfg, id) && id.epoch == o.cursor && Attempts(o.retried, id) < w.knobs.maxRetries
    requires InputsPresent(TaskOf(w.cfg, id), bucket) && !OutputsPresent(TaskOf(w.cfg, id), bucket)
    ensures var o' := Tick(w.cfg, w.knobs, o, bucket, infos, now, true);
            var ids := TaskIds(EpochTasks(w.cfg, o.cursor));
            && Renewed(w, now, o, o')
            && AttemptsLeft(w.knobs, o'.retried, ids) < AttemptsLeft(w.knobs, o.retried, ids)
  {
    var x := NewcomerComes(w, o, now);
    infos := [Everywhere(x, |w.cfg.stages|, now)];
    var table := StageTable(|w.cfg.stages|, infos, o.evicted, now);
    assert id in o.manifests && !InTable(table, o.manifests[id].assignee);
    RetryProgress(w, o, bucket, table, now, id, x);
  }

  // ------------------------------------------------------------------------
  // Rescue
  // ------------------------------------------------------------------------

  /** Every job with a needed output missing is in time at `now` or has an attempt left. */
  ghost predicate AllSavable(w: World, s: State, e: nat, now: int)
  {
    forall id, u {:trigger Wants(w.cfg, e, NeededOutputs(w.cfg, e), id, u)} ::
      Wants(w.cfg, e, NeededOutputs(w.cfg, e), id, u) && u !in s.bucket ==>
      && id in s.orch.manifests
      && (!Past(s.orch.manifests[id], now) || Attempts(s.orch.retried, id) < w.knobs.maxRetries)
  }

  lemma SavableAhead(w: World, s: State, s': State, e: nat, now: int)
    requires AllSavable(w, s, e, now) && Ahead(s, s')
    ensures AllSavable(w, s', e, now)
  {
  }

  lemma SavableRenewed(w: World, s: State, s': State, e: nat, now: int)
    requires AllSavable(w, s, e, now) && Renewed(w, now, s.orch, s'.orch) && s'.bucket == s.bucket
    requires w.knobs.deadlineSec >= 0
    ensures AllSavable(w, s', e, now)
  {
    forall id, u | Wants(w.cfg, e, NeededOutputs(w.cfg, e), id, u) && u !in s'.bucket
      ensures id in s'.orch.manifests
      ensures !Past(s'.orch.manifests[id], now) || Attempts(s'.orch.retried, id) < w.knobs.maxRetries
    {
      assert SameOrRenewed(w.knobs, now, s.orch.manifests, s'.orch.manifests, id);
    }
  }

  /** The run is at an epoch that a tick at `now` can retry. */
  ghost predicate CanRetry(w: World, s: State, e: nat, now: int)
  {
    && s.orch.cursor == e && e in s.orch.emitted && e < w.cfg.maxEpochs && s.clock <= now
    && RetryDue(w.knobs, s.orch, now) && AllSavable(w, s, e, now)
  }

  /** One more step: a needed job that is in time at `now` is executed. */
  lemma RescueByWorker(w: World, init: Store, states: seq<State>, labels: seq<Label>, e: nat, now: int, id: JobId,
                       u: Uri)
    returns (states': seq<State>, labels': seq<Label>)
    requires ValidRun(w, init, states, labels) && GraphsTotal(w.cfg) && CanRetry(w, Last(states), e, now)
    requires Emits(w.cfg, id) && Writes(TaskOf(w.cfg, id), u)
    requires u in NeededOutputs(w.cfg, e) && u !in Last(states).bucket
    requires ManifestsOk(w.cfg, Last(states).orch) && id.epoch == e && !Past(Last(states).orch.manifests[id], now)
    requires InputsPresent(TaskOf(w.cfg, id), Last(states).bucket)
    ensures Goes(w, init, states, labels, states', labels') && CanRetry(w, Last(states'), e, now)
    ensures Last(states').orch == Last(states).orch
    ensures var want := NeededOutputs(w.cfg, e);
            Missing(want, Last(states').bucket) < Missing(want, Last(states).bucket)
  {
    var s, want := Last(states), NeededOutputs(w.cfg, e);
    states', labels' := ExecuteFully(w, init, states, labels, id);
    WorkersGo(w, init, states, labels, states', labels');
    Smaller(want - Last(states').bucket.Keys, want - s.bucket.Keys, u);
    SavableAhead(w, s, Last(states'), e, now);
  }

  /** Or the orchestrator retries some job. */
  lemma RescueByTick(w: World, init: Store, states: seq<State>, labels: seq<Label>, e: nat, now: int, id: JobId)
    returns (states': seq<State>, labels': seq<Label>)
    requires ValidRun(w, init, states, labels) && CanRetry(w, Last(states), e, now) && w.knobs.deadlineSec >= 0
    requires ManifestsOk(w.cfg, Last(states).orch) && Emits(w.cfg, id) && id.epoch == e
    requires !EpochDone(w.cfg, Last(states).bucket, e) && Attempts(Last(states).orch.retried, id) < w.knobs.maxRetries
    requires InputsPresent(TaskOf(w.cfg, id), Last(states).bucket)
    requires !OutputsPresent(TaskOf(w.cfg, id), Last(states).bucket)
    ensures Goes(w, init, states, labels, states', labels') && CanRetry(w, Last(states'), e, now)
    ensures var ids := TaskIds(EpochTasks(w.cfg, e));
            var after, before := Last(states').orch.retried, Last(states).orch.retried;
            AttemptsLeft(w.knobs, after, ids) < AttemptsLeft(w.knobs, before, ids)
  {
    var s := Last(states);
    var infos := RetryTick(w, s.orch, s.bucket, now, id);
    var l := OrchTick(infos, now, true);
    var s1 := s.(orch := Tick(w.cfg, w.knobs, s.orch, s.bucket, infos, now, true), clock := now);
    TickGoes(w, init, states, labels, l, s1);
    SavableRenewed(w, s, s1, e, now);
    states', labels' := states + [s1], labels + [l];
  }

  /** From a state in which retries are due and every missing job is in time or has an attempt left. */
  lemma {:induction false} RescueAll(w: World, init: Store, states: seq<State>, labels: seq<Label>, e: nat, now: int)
    returns (states': seq<State>, labels': seq<Label>)
    requires ValidRun(w, init, states, labels) && WellWired(w.cfg, init) && GraphsTotal(w.cfg)
    requires CanRetry(w, Last(states), e, now) && w.knobs.deadlineSec >= 0
    ensures Goes(w, init, states, labels, states', labels') && EpochDone(w.cfg, Last(states').bucket, e)
    decreases AttemptsLeft(w.knobs, Last(states).orch.retried, TaskIds(EpochTasks(w.cfg, e))),
              Missing(NeededOutputs(w.cfg, e), Last(states).bucket)
  {
    var s, want := Last(states), NeededOutputs(w.cfg, e);
    states', labels' := states, labels;
    RunCloses(w, init, states, labels, |states| - 1);
    DoneIffStored(w.cfg, init, s.bucket, e);
    if !Stored(want, s.bucket) {
      NeededSelfContained(w.cfg, e);
      var id, u := ReadyForWanted(w.cfg, init, s.bucket, e, want);
      var states1, labels1;
      if Past(s.orch.manifests[id], now) {
        states1, labels1 := RescueByTick(w, init, states, labels, e, now, id);
      } else {
        states1, labels1 := RescueByWorker(w, init, states, labels, e, now, id, u);
      }
      states', labels' := RescueAll(w, init, states1, labels1, e, now);
      GoesFurther(w, init, states, labels, states1, labels1, states', labels');
    }
  }

  lemma TickEmitsBelowMax(w: World, o: Orch, bucket: Store, infos: seq<WorkerInfo>, now: int, graceOver: bool, e: nat)
    requires |w.cfg.stages| > 0 && e !in o.emitted
    requires e in Tick(w.cfg, w.knobs, o, bucket, infos, now, graceOver).emitted
    ensures e < w.cfg.maxEpochs
  {
  }

  lemma StepEmitsBelowMax(w: World, s: State, l: Label, s': State, e: nat)
    requires |w.cfg.stages| > 0 && Next(w, s, l, s') && e !in s.orch.emitted && e in s'.orch.emitted
    ensures e < w.cfg.maxEpochs
  {
    if l.OrchTick? {
      TickEmitsBelowMax(w, s.orch, s.bucket, l.infos, l.now, l.graceOver, e);
    }
  }

  lemma {:induction false} EmittedBelowMax(w: World, init: Store, states: seq<State>, labels: seq<Label>, i: nat,
                                           e: nat)
    requires ValidRun(w, init, states, labels) && i < |states| && e in states[i].orch.emitted
    ensures e < w.cfg.maxEpochs
  {
    if i > 0 {
      assert StepAt(w, states, labels, i - 1);
      if e in states[i - 1].orch.emitted {
        EmittedBelowMax(w, init, states, labels, i - 1, e);
      } else {
        StepEmitsBelowMax(w, states[i - 1], labels[i - 1], states[i], e);
      }
    }
  }

  /** Some continuation by workers and ticks makes the check of the epoch in flight pass. */
  ghost predicate CanFinishTogether(w: World, init: Store, states: seq<State>, labels: seq<Label>)
  {
    exists states', labels' ::
      Goes(w, init, states, labels, states', labels') &&
      EpochDone(w.cfg, Last(states').bucket, Last(states).orch.cursor)
  }

  lemma Rescued(w: World, init: Store, states: seq<State>, labels: seq<Label>)
    returns (states': seq<State>, labels': seq<Label>)
    requires ValidRun(w, init, states, labels) && WellWired(w.cfg, init) && GraphsTotal(w.cfg)
    requires Last(states).orch.cursor in Last(states).orch.emitted && w.knobs.deadlineSec >= 0
    requires Rescuable(w, Last(states))
    ensures Goes(w, init, states, labels, states', labels')
    ensures EpochDone(w.cfg, Last(states').bucket, Last(states).orch.cursor)
  {
    var s := Last(states);
    var e := s.orch.cursor;
    var ts := EpochTasks(w.cfg, e);
    states', labels' := StoreSoon(w, init, states, labels, ts, OutputsOf(ts), |ts|);
    WorkersGo(w, init, states, labels, states', labels');
    var s1 := Last(states');
    RunCloses(w, init, states', labels', |states'| - 1);
    DoneIffStored(w.cfg, init, s1.bucket, e);
    if !EpochDone(w.cfg, s1.bucket, e) {
      var now := SavableFrom(w, s, s1);
      EmittedBelowMax(w, init, states, labels, |states| - 1, e);
      var states1, labels1 := states', labels';
      states', labels' := RescueAll(w, init, states1, labels1, e, now);
      GoesFurther(w, init, states, labels, states1, labels1, states', labels');
    }
  }

  lemma SavableFrom(w: World, s: State, s1: State) returns (now: int)
    requires Rescuable(w, s) && Ahead(s, s1) && Obtainable(w.cfg, s) <= s1.bucket.Keys
    requires s.orch.cursor in s.orch.emitted && !Stored(NeededOutputs(w.cfg, s.orch.cursor), s1.bucket)
    ensures s1.clock <= now && RetryDue(w.knobs, s1.orch, now) && AllSavable(w, s1, s.orch.cursor, now)
  {
    var e := s.orch.cursor;
    var v :| v in NeededOutputs(w.cfg, e) && v !in s1.bucket;
    var k := OutputsHaveWriter(EpochTasks(w.cfg, e), v);
    EpochMembers(w.cfg, e, EpochTasks(w.cfg, e)[k]);
    assert Wants(w.cfg, e, NeededOutputs(w.cfg, e), EpochTasks(w.cfg, e)[k].id, v);
    now := RetryTime(w.knobs, s).value;
  }

  lemma DoneWasRescuable(w: World, init: Store, states: seq<State>, labels: seq<Label>, states': seq<State>,
                         labels': seq<Label>)
    requires Goes(w, init, states, labels, states', labels') && WellWired(w.cfg, init)
    requires Last(states).orch.cursor in Last(states).orch.emitted && ManifestsOk(w.cfg, Last(states).orch)
    requires EpochDone(w.cfg, Last(states').bucket, Last(states).orch.cursor)
    ensures Rescuable(w, Last(states))
  {
    var s := Last(states);
    var e, i := s.orch.cursor, |labels|;
    assert states'[i] == s;
    forall id, u | Wants(w.cfg, e, NeededOutputs(w.cfg, e), id, u) && u !in Obtainable(w.cfg, s)
      ensures Savable(w, s, id)
    {
      if !Savable(w, s, id) {
        LostNotDone(w, init, states', labels', i, |states'| - 1, id, u);
      }
    }
  }

  /**
   From every reachable state whose epoch is emitted, workers and ticks together can finish the epoch if and
   only if every needed output that workers can no longer get before the first retry belongs to a job that is
   still in time at that retry or has an attempt left, and there is such a time.
   */
  lemma TogetherIff(w: World, init: Store, states: seq<State>, labels: seq<Label>)
    requires ValidRun(w, init, states, labels) && WellWired(w.cfg, init) && GraphsTotal(w.cfg)
    requires Last(states).orch.cursor in Last(states).orch.emitted && w.knobs.deadlineSec >= 0
    ensures CanFinishTogether(w, init, states, labels) <==> Rescuable(w, Last(states))
  {
    RunCloses(w, init, states, labels, |states| - 1);
    if Rescuable(w, Last(states)) {
      var states', labels' := Rescued(w, init, states, labels);
    }
    if CanFinishTogether(w, init, states, labels) {
      var states', labels' :|
        Goes(w, init, states, labels, states', labels') &&
        EpochDone(w.cfg, Last(states').bucket, Last(states).orch.cursor);
      DoneWasRescuable(w, init, states, labels, states', labels');
    }
  }

  // ------------------------------------------------------------------------
  // A live assignee that never delivers
  // ------------------------------------------------------------------------

  /** The job's assignee is in the stage table that the tick builds, and the job is not on its last attempt. */
  predicate KeptByAssignee(w: World, s: State, l: Label, id: JobId)
  {
    && id in s.orch.manifests && Attempts(s.orch.retried, id) + 1 < w.knobs.maxRetries
    && (l.OrchTick? ==>
          InTable(StageTable(|w.cfg.stages|, l.infos, s.orch.evicted, l.now), s.orch.manifests[id].assignee))
  }

  lemma {:induction false} ScanLeavesLive(k: Knobs, sc: Scan, bucket: Store, table: seq<seq<WorkerId>>, now: int,
                                          ids: seq<JobId>, id: JobId)
    requires id in sc.manifests && InTable(table, sc.manifests[id].assignee)
    requires Attempts(sc.retried, id) + 1 < k.maxRetries
    ensures Untouched(sc, RetryScan(k, sc, bucket, table, now, ids), id)
    decreases |ids|
  {
    if |ids| > 0 {
      ScanLeavesLive(k, RetryOne(k, sc, bucket, table, now, ids[0]), bucket, table, now, ids[1..], id);
    }
  }

  lemma TickLeavesLive(w: World, s: State, l: Label, s': State, id: JobId)
    requires |w.cfg.stages| > 0 && l.OrchTick? && Next(w, s, l, s') && KeptByAssignee(w, s, l, id)
    requires s.orch.cursor in s.orch.emitted && !EpochDone(w.cfg, s.bucket, s.orch.cursor)
    ensures SameJob(s, s', id)
  {
    TickIsRetry(w, s.orch, s.bucket, l.infos, l.now, l.graceOver);
    var table := StageTable(|w.cfg.stages|, l.infos, s.orch.evicted, l.now);
    ScanLeavesLive(w.knobs, Scan(s.orch.manifests, s.orch.retried, s.orch.evicted, 0), s.bucket, table, l.now,
                   TaskIds(EpochTasks(w.cfg, s.orch.cursor)), id);
  }

  /** The epoch waits for an output of an expired job. */
  ghost predicate Waits(w: World, s: State, id: JobId, u: Uri)
  {
    && s.orch.cursor == id.epoch && s.orch.cursor in s.orch.emitted
    && OutOfReach(w.cfg, s, id, u) && u in NeededOutputs(w.cfg, id.epoch)
  }

  lemma WaitsNotDone(w: World, init: Store, s: State, id: JobId, u: Uri)
    requires WellWired(w.cfg, init) && AllSupported(w.cfg, init, s.bucket) && Waits(w, s, id, u)
    ensures !EpochDone(w.cfg, s.bucket, id.epoch)
  {
    DoneIffStored(w.cfg, init, s.bucket, id.epoch);
  }

  lemma WaitsOn(w: World, init: Store, s: State, l: Label, s': State, id: JobId, u: Uri)
    requires WellWired(w.cfg, init) && AllSupported(w.cfg, init, s.bucket) && ManifestsOk(w.cfg, s.orch)
    requires Next(w, s, l, s') && Waits(w, s, id, u) && KeptByAssignee(w, s, l, id) && !l.OrchResume?
    ensures Waits(w, s', id, u)
  {
    WaitsNotDone(w, init, s, id, u);
    if l.OrchTick? {
      TickLeavesLive(w, s, l, s', id);
    }
    StaysOutOfReach(w, s, l, s', id, u);
  }

  /** At step `m` the job stays with its worker. */
  ghost predicate KeptAt(w: World, states: seq<State>, labels: seq<Label>, id: JobId, m: nat)
  {
    m < |labels| && m < |states| && KeptByAssignee(w, states[m], labels[m], id) && !labels[m].OrchResume?
  }

  ghost predicate WaitsAt(w: World, states: seq<State>, id: JobId, u: Uri, m: nat)
  {
    m < |states| && Waits(w, states[m], id, u)
  }

  lemma WaitsNext(w: World, init: Store, states: seq<State>, labels: seq<Label>, id: JobId, u: Uri, m: nat)
    requires ValidRun(w, init, states, labels) && WellWired(w.cfg, init)
    ensures KeptAt(w, states, labels, id, m) && WaitsAt(w, states, id, u, m) ==> WaitsAt(w, states, id, u, m + 1)
  {
    if KeptAt(w, states, labels, id, m) && WaitsAt(w, states, id, u, m) {
      RunCloses(w, init, states, labels, m);
      assert StepAt(w, states, labels, m);
      WaitsOn(w, init, states[m], labels[m], states[m + 1], id, u);
    }
  }

  lemma {:induction false} WaitsLater(w: World, init: Store, states: seq<State>, labels: seq<Label>, i: nat, j: nat,
                                      id: JobId, u: Uri)
    requires ValidRun(w, init, states, labels) && i <= j && WellWired(w.cfg, init)
    requires WaitsAt(w, states, id, u, i) && forall m: nat :: i <= m < j ==> KeptAt(w, states, labels, id, m)
    ensures WaitsAt(w, states, id, u, j)
    decreases j
  {
    if i < j {
      WaitsLater(w, init, states, labels, i, j - 1, id, u);
      WaitsNext(w, init, states, labels, id, u, j - 1);
    }
  }

  /**
   Without any restart: as long as the worker of an expired job is alive at every tick and the job is not on its
   last attempt, it is not retried, and the epoch that needs it is not finished.
   */
  lemma LiveAssigneeHolds(w: World, init: Store, states: seq<State>, labels: seq<Label>, i: nat, j: nat, id: JobId,
                          u: Uri)
    requires ValidRun(w, init, states, labels) && i <= j && WellWired(w.cfg, init)
    requires WaitsAt(w, states, id, u, i) && forall m: nat :: i <= m < j ==> KeptAt(w, states, labels, id, m)
    ensures WaitsAt(w, states, id, u, j) && !EpochDone(w.cfg, states[j].bucket, id.epoch)
  {
    WaitsLater(w, init, states, labels, i, j, id, u);
    RunCloses(w, init, states, labels, j);
    WaitsNotDone(w, init, states[j], id, u);
  }

  // ------------------------------------------------------------------------
  // Runs without a restart that get there
  // ------------------------------------------------------------------------

  lemma {:induction false} NotSoon(cfg: Config, s: State, ts: seq<Task>, outs: set<Uri>, n: nat, id: JobId, u: Uri)
    requires ts == EpochTasks(cfg, s.orch.cursor) && n <= |ts| && Emits(cfg, id) && Writes(TaskOf(cfg, id), u)
    requires !InTime(s, id) && !OnHand(s, u)
    ensures u !in Soon(s, ts, outs, n)
    decreases n
  {
    if n > 0 {
      NotSoon(cfg, s, ts, outs, n - 1, id, u);
      if InTime(s, ts[n - 1].id) && u in RefUris(ts[n - 1].outputs) {
        RefUrisHaveRef(ts[n - 1].outputs, u);
        EpochMembers(cfg, s.orch.cursor, ts[n - 1]);
        OneWriter(cfg, id, ts[n - 1].id, u);
      }
    }
  }

  /** Epoch 0 is in flight, only given artifacts are stored, and the job has its inputs and a deadline. */
  ghost predicate BeforeWork(w: World, init: Store, s: State, id: JobId, u: Uri)
  {
    && s.bucket == init && s.flights == {} && s.orch.cursor == 0 && 0 in s.orch.emitted
    && Wants(w.cfg, 0, NeededOutputs(w.cfg, 0), id, u) && u !in init
    && InputsPresent(TaskOf(w.cfg, id), init) && !EpochDone(w.cfg, init, 0)
    && id in s.orch.manifests && s.orch.manifests[id].deadline > 0
  }

  ghost predicate OnlyTicks(labels: seq<Label>) { forall i :: 0 <= i < |labels| ==> labels[i].OrchTick? }

  /** Some needed job of epoch 0 has its inputs from the start. */
  lemma FirstReady(w: World, init: Store) returns (id: JobId, u: Uri)
    requires WellWired(w.cfg, init) && w.cfg.microbatches > 0
    ensures Wants(w.cfg, 0, NeededOutputs(w.cfg, 0), id, u) && u !in init
    ensures InputsPresent(TaskOf(w.cfg, id), init) && !EpochDone(w.cfg, init, 0)
  {
    var s := State(Fresh(), init, map[], {}, 0);
    NothingDone(w.cfg, init);
    RunCloses(w, init, [s], [], 0);
    DoneIffStored(w.cfg, init, init, 0);
    NeededSelfContained(w.cfg, 0);
    id, u := ReadyForWanted(w.cfg, init, init, 0, NeededOutputs(w.cfg, 0));
  }

  lemma TicksOn(w: World, init: Store, states: seq<State>, labels: seq<Label>, infos: seq<WorkerInfo>, now: int)
    returns (states': seq<State>, labels': seq<Label>)
    requires ValidRun(w, init, states, labels) && OnlyTicks(labels) && Last(states).clock <= now
    ensures ValidRun(w, init, states', labels') && OnlyTicks(labels')
    ensures var s := Last(states);
            Last(states') ==
            s.(orch := Tick(w.cfg, w.knobs, s.orch, s.bucket, infos, now, true), clock := now)
  {
    var s, l := Last(states), OrchTick(infos, now, true);
    var s' := s.(orch := Tick(w.cfg, w.knobs, s.orch, s.bucket, infos, now, true), clock := now);
    ExtendRun(w, init, states, labels, l, s');
    states', labels' := states + [s'], labels + [l];
  }

  /** The first tick. */
  lemma Begun(w: World, init: Store, now: int)
    returns (states: seq<State>, labels: seq<Label>, id: JobId, u: Uri)
    requires WellWired(w.cfg, init) && w.cfg.microbatches > 0 && w.cfg.maxEpochs > 0
    requires w.knobs.retryAfter > 0 && w.knobs.deadlineSec >= 0 && now > 0
    ensures ValidRun(w, init, states, labels) && OnlyTicks(labels) && BeforeWork(w, init, Last(states), id, u)
    ensures Last(states).clock == now && Last(states).orch.startedAt == map[0 := now]
    ensures Last(states).orch.retried == map[]
  {
    var s0 := State(Fresh(), init, map[], {}, now);
    id, u := FirstReady(w, init);
    var o1 := FirstTick(w, init, now, id);
    states, labels := TicksOn(w, init, [s0], [], [Everywhere(0, |w.cfg.stages|, now)], now);
  }

  /** Time passes while no worker is up. */
  lemma Wait(w: World, init: Store, states: seq<State>, labels: seq<Label>, late: int)
    returns (states': seq<State>, labels': seq<Label>)
    requires ValidRun(w, init, states, labels) && OnlyTicks(labels) && Last(states).clock <= late
    ensures ValidRun(w, init, states', labels') && OnlyTicks(labels')
    ensures Last(states') == Last(states).(clock := late)
  {
    NoWorkersNoTick(w, Last(states).orch, Last(states).bucket, late);
    states', labels' := TicksOn(w, init, states, labels, [], late);
  }

  /** An epoch in flight whose needed job has expired, with no attempt used. */
  lemma WaitReached(w: World, init: Store, now: int)
    returns (states: seq<State>, labels: seq<Label>, id: JobId, u: Uri)
    requires WellWired(w.cfg, init) && w.cfg.microbatches > 0 && w.cfg.maxEpochs > 0
    requires w.knobs.retryAfter > 0 && w.knobs.deadlineSec >= 0 && now > 0
    ensures ValidRun(w, init, states, labels) && OnlyTicks(labels)
    ensures Waits(w, Last(states), id, u) && Attempts(Last(states).orch.retried, id) == 0
  {
    states, labels, id, u := Begun(w, init, now);
    var late := Later(now, Last(states).orch.manifests[id].deadline + 1);
    states, labels := Wait(w, init, states, labels, late);
  }

  /** One more tick that sees a newcomer. */
  lemma UseAttempt(w: World, init: Store, states: seq<State>, labels: seq<Label>, id: JobId, u: Uri, now: int)
    returns (states': seq<State>, labels': seq<Label>)
    requires ValidRun(w, init, states, labels) && OnlyTicks(labels) && BeforeWork(w, init, Last(states), id, u)
    requires ManifestsOk(w.cfg, Last(states).orch) && w.cfg.maxEpochs > 0 && w.knobs.deadlineSec >= 0 && now > 0
    requires Last(states).clock <= now && RetryDue(w.knobs, Last(states).orch, now)
    requires Attempts(Last(states).orch.retried, id) < w.knobs.maxRetries
    ensures ValidRun(w, init, states', labels') && OnlyTicks(labels') && BeforeWork(w, init, Last(states'), id, u)
    ensures Last(states').clock == now && Last(states').orch.startedAt == Last(states).orch.startedAt
    ensures var ids := TaskIds(EpochTasks(w.cfg, 0));
            var after, before := Last(states').orch.retried, Last(states).orch.retried;
            AttemptsLeft(w.knobs, after, ids) < AttemptsLeft(w.knobs, before, ids)
  {
    var s := Last(states);
    var infos := RetryTick(w, s.orch, s.bucket, now, id);
    states', labels' := TicksOn(w, init, states, labels, infos, now);
    assert SameOrRenewed(w.knobs, now, s.orch.manifests, Last(states').orch.manifests, id);
  }

  lemma {:induction false} UseAttempts(w: World, init: Store, states: seq<State>, labels: seq<Label>, id: JobId, u: Uri,
                                       now: int)
    returns (states': seq<State>, labels': seq<Label>)
    requires ValidRun(w, init, states, labels) && OnlyTicks(labels) && BeforeWork(w, init, Last(states), id, u)
    requires w.cfg.maxEpochs > 0 && w.knobs.deadlineSec >= 0 && now > 0
    requires Last(states).clock <= now && RetryDue(w.knobs, Last(states).orch, now)
    ensures ValidRun(w, init, states', labels') && OnlyTicks(labels') && BeforeWork(w, init, Last(states'), id, u)
    ensures Attempts(Last(states').orch.retried, id) >= w.knobs.maxRetries
    decreases AttemptsLeft(w.knobs, Last(states).orch.retried, TaskIds(EpochTasks(w.cfg, 0)))
  {
    states', labels' := states, labels;
    if Attempts(Last(states).orch.retried, id) < w.knobs.maxRetries {
      RunOrch(w, init, states, labels, |states| - 1, |states| - 1);
      states', labels' := UseAttempt(w, init, states, labels, id, u, now);
      states', labels' := UseAttempts(w, init, states', labels', id, u, now);
    }
  }

  lemma OverdueIsLost(w: World, init: Store, s: State, id: JobId, u: Uri)
    requires BeforeWork(w, init, s, id, u) && s.clock > s.orch.manifests[id].deadline
    requires Attempts(s.orch.retried, id) >= w.knobs.maxRetries
    ensures Lost(w, s, id, u)
  {
    var ts := EpochTasks(w.cfg, 0);
    NotSoon(w.cfg, s, ts, OutputsOf(ts), |ts|, id, u);
  }

  lemma LostNotRescuable(w: World, s: State, id: JobId, u: Uri)
    requires Lost(w, s, id, u)
    ensures !Rescuable(w, s)
  {
  }

  /**
   Every deployment has a run of ticks alone, without a restart, after which workers and ticks together cannot
   finish the epoch any more: hand a job to worker after worker until its attempts are used up, and let its last
   deadline pass.
   */
  lemma RetriesCanRunOut(w: World, init: Store, now: int) returns (states: seq<State>, labels: seq<Label>)
    requires WellWired(w.cfg, init) && GraphsTotal(w.cfg) && w.cfg.microbatches > 0 && w.cfg.maxEpochs > 0
    requires w.knobs.retryAfter > 0 && w.knobs.deadlineSec >= 0 && now > 0
    ensures ValidRun(w, init, states, labels) && OnlyTicks(labels)
    ensures Last(states).orch.cursor in Last(states).orch.emitted && !CanFinishTogether(w, init, states, labels)
  {
    var id, u;
    states, labels, id, u := Begun(w, init, now);
    states, labels := UseAttempts(w, init, states, labels, id, u, now + w.knobs.retryAfter);
    var late := Later(Last(states).clock, Last(states).orch.manifests[id].deadline + 1);
    states, labels := Wait(w, init, states, labels, late);
    OverdueIsLost(w, init, Last(states), id, u);
    LostNotRescuable(w, Last(states), id, u);
    TogetherIff(w, init, states, labels);
  }
}
