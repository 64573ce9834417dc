/**
 When workers alone can finish an epoch: a measure of the work left, the runs in which
 only workers act, and the exact condition under which such a run completes the epoch.
 A worker refuses a job whose deadline has passed, so an artifact that is neither stored
 nor on its way is out of reach once its job has expired.
 */
module StreamingFinish {
  import opened Common
  import opened Pipeline
  import opened Dataflow
  import opened StreamingOrch
  import opened WorkerCache
  import opened StreamingRuns
  import opened StreamingTheorems
  import opened StreamingProgress
  import opened StreamingBounds

  // ------------------------------------------------------------------------
  // A measure of the work left in an epoch
  // ------------------------------------------------------------------------

  ghost function OutputsOf(ts: seq<Task>): set<Uri>
  {
    if |ts| == 0 then {} else OutputsOf(ts[..|ts| - 1]) + RefUris(ts[|ts| - 1].outputs)
  }

  ghost function RefUris(refs: seq<IORef>): set<Uri>
  {
    if |refs| == 0 then {} else RefUris(refs[..|refs| - 1]) + {refs[|refs| - 1].uri}
  }

  lemma {:induction false} RefUrisMember(refs: seq<IORef>, r: IORef)
    requires r in refs
    ensures r.uri in RefUris(refs)
  {
    if r != refs[|refs| - 1] {
      assert r in refs[..|refs| - 1];
      RefUrisMember(refs[..|refs| - 1], r);
    }
  }

  lemma {:induction false} OutputsMember(ts: seq<Task>, t: Task, o: IORef)
    requires t in ts && o in t.outputs
    ensures o.uri in OutputsOf(ts)
  {
    if t == ts[|ts| - 1] {
      RefUrisMember(t.outputs, o);
    } else {
      assert t in ts[..|ts| - 1];
      OutputsMember(ts[..|ts| - 1], t, o);
    }
  }

  /** `outs` covers every output of the epoch's jobs. */
  ghost predicate CoversEpoch(cfg: Config, e: nat, outs: set<Uri>)
  {
    forall id :: Emits(cfg, id) && id.epoch == e ==> CoversTask(TaskOf(cfg, id), outs)
  }

  ghost predicate CoversTask(t: Task, outs: set<Uri>) { forall o :: o in t.outputs ==> o.uri in outs }

  lemma EpochOutputs(cfg: Config, e: nat) returns (outs: set<Uri>)
    ensures outs == OutputsOf(EpochTasks(cfg, e)) && CoversEpoch(cfg, e, outs)
  {
    outs := OutputsOf(EpochTasks(cfg, e));
    forall id | Emits(cfg, id) && id.epoch == e ensures CoversTask(TaskOf(cfg, id), outs) {
      EpochMembers(cfg, e, TaskOf(cfg, id));
      forall o | o in TaskOf(cfg, id).outputs ensures o.uri in outs {
        OutputsMember(EpochTasks(cfg, e), TaskOf(cfg, id), o);
      }
    }
  }

  ghost function Missing(outs: set<Uri>, bucket: Store): nat { |outs - bucket.Keys| }

  ghost predicate NothingLost(a: Store, b: Store) { forall u :: u in a ==> u in b }

  /** Once a job that lacked an output has all of them, strictly fewer outputs are missing. */
  lemma JobProgress(t: Task, outs: set<Uri>, before: Store, after: Store)
    requires CoversTask(t, outs) && NothingLost(before, after)
    requires !OutputsPresent(t, before) && OutputsPresent(t, after)
    ensures Missing(outs, after) < Missing(outs, before)
  {
    var o :| o in t.outputs && o.uri !in before;
    Smaller(outs - after.Keys, outs - before.Keys, o.uri);
  }

  lemma Smaller(a: set<Uri>, b: set<Uri>, u: Uri)
    requires a <= b && u in b && u !in a
    ensures |a| < |b|
  {
    SubsetSize(a, b - {u});
  }

  /**
   A successful execution, with all its outputs landed, strictly lowers the number of outputs missing from the
   epoch.
   */
  lemma ExecutionProgress(cfg: Config, id: JobId, bucket: Store, inputs: map<Name, Value>)
    requires Emits(cfg, id) && !OutputsPresent(TaskOf(cfg, id), bucket) && Succeeds(cfg, TaskOf(cfg, id), inputs)
    ensures var outs := OutputsOf(EpochTasks(cfg, id.epoch));
            Missing(outs, bucket + Outcome(cfg, TaskOf(cfg, id), inputs)) < Missing(outs, bucket)
  {
    var outs := EpochOutputs(cfg, id.epoch);
    JobProgress(TaskOf(cfg, id), outs, bucket, bucket + Outcome(cfg, TaskOf(cfg, id), inputs));
  }

  // ------------------------------------------------------------------------
  // Runs in which only workers act
  // ------------------------------------------------------------------------

  predicate ByWorker(l: Label) { !l.OrchTick? && !l.OrchResume? }

  function Last(states: seq<State>): State
    requires |states| > 0
  {
    states[|states| - 1]
  }

  /** A valid run that goes on from `states` with steps of workers only. */
  ghost predicate Continues(w: World, init: Store, states: seq<State>, labels: seq<Label>,
                            states': seq<State>, labels': seq<Label>)
  {
    && ValidRun(w, init, states, labels) && ValidRun(w, init, states', labels')
    && states <= states' && labels <= labels'
    && forall i :: |labels| <= i < |labels'| ==> ByWorker(labels'[i])
  }

  lemma ExtendRun(w: World, init: Store, states: seq<State>, labels: seq<Label>, l: Label, s: State)
    requires ValidRun(w, init, states, labels) && Next(w, Last(states), l, s)
    ensures ValidRun(w, init, states + [s], labels + [l])
    ensures ByWorker(l) ==> Continues(w, init, states, labels, states + [s], labels + [l])
  {
    var ss, ls := states + [s], labels + [l];
    forall i | 0 <= i < |ls| ensures StepAt(w, ss, ls, i) {
      if i < |labels| {
        assert StepAt(w, states, labels, i);
      }
    }
  }

  lemma ContinuesFurther(w: World, init: Store, a: seq<State>, la: seq<Label>, b: seq<State>, lb: seq<Label>,
                         c: seq<State>, lc: seq<Label>)
    requires Continues(w, init, a, la, b, lb) && Continues(w, init, b, lb, c, lc)
    ensures Continues(w, init, a, la, c, lc)
  {
    forall i | |la| <= i < |lc| ensures ByWorker(lc[i]) {
      if i < |lb| {
        assert lc[i] == lb[i];
      }
    }
  }

  /** Nothing but the bucket, the caches and the uploads has changed, and no artifact was lost. */
  ghost predicate Ahead(s: State, s': State)
  {
    s'.orch == s.orch && s'.clock == s.clock && NothingLost(s.bucket, s'.bucket)
  }

  /** All the given uploads can land. */
  lemma {:induction false} LandAll(w: World, init: Store, states: seq<State>, labels: seq<Label>, todo: set<Flight>)
    returns (states': seq<State>, labels': seq<Label>)
    requires ValidRun(w, init, states, labels)
    requires todo <= Last(states).flights && forall f :: f in todo ==> !f.landed
    ensures Continues(w, init, states, labels, states', labels') && Ahead(Last(states), Last(states'))
    ensures forall f :: f in todo ==> f.uri in Last(states').bucket
    decreases todo
  {
    states', labels' := states, labels;
    if todo != {} {
      var f :| f in todo;
      var s := Last(states);
      var s1 := s.(bucket := s.bucket[f.uri := f.value], flights := s.flights - {f} + {f.(landed := true)});
      ExtendRun(w, init, states, labels, Land(f), s1);
      states', labels' := LandAll(w, init, states + [s1], labels + [Land(f)], todo - {f});
      ContinuesFurther(w, init, states, labels, states + [s1], labels + [Land(f)], states', labels');
    }
  }

  // ------------------------------------------------------------------------
  // One job
  // ------------------------------------------------------------------------

  ghost function InputNames(t: Task): set<Name> { set r | r in t.inputs :: r.name }

  /** Evaluation of the task returns, with every declared output, on every dictionary of its inputs. */
  ghost predicate TaskTotal(cfg: Config, t: Task)
  {
    forall inputs: map<Name, Value> :: inputs.Keys == InputNames(t) ==> Succeeds(cfg, t, inputs)
  }

  ghost predicate GraphsTotal(cfg: Config) { forall id :: Emits(cfg, id) ==> TaskTotal(cfg, TaskOf(cfg, id)) }

  lemma WorkerInputNames(w: World, s: State, wk: WorkerId, t: Task)
    requires InputsPresent(t, s.bucket)
    ensures WorkerInputs(w, s, wk, t).Keys == InputNames(t)
  {
    var c := CachesOf(w, s, wk);
    GatherKeys(FetchOrder(t.inputs, CachedKeys(c)), ReadAll(c, s.bucket));
  }

  /** No worker will pick the job up any more: its deadline is set and lies in the past. */
  predicate Expired(s: State, id: JobId)
    requires id in s.orch.manifests
  {
    s.orch.manifests[id].deadline != 0 && s.orch.manifests[id].deadline < s.clock
  }

  /** A job that has its inputs and has not expired can be executed on the spot, and all its outputs can land. */
  lemma ExecuteFully(w: World, init: Store, states: seq<State>, labels: seq<Label>, id: JobId)
    returns (states': seq<State>, labels': seq<Label>)
    requires ValidRun(w, init, states, labels)
    requires id in Last(states).orch.manifests && !Expired(Last(states), id)
    requires var t := Last(states).orch.manifests[id].task;
             && InputsPresent(t, Last(states).bucket) && !OutputsPresent(t, Last(states).bucket)
             && TaskTotal(w.cfg, t)
    ensures Continues(w, init, states, labels, states', labels') && Ahead(Last(states), Last(states'))
    ensures OutputsPresent(Last(states).orch.manifests[id].task, Last(states').bucket)
  {
    var s := Last(states);
    var m := s.orch.manifests[id];
    var wk, c := m.assignee, CachesOf(w, s, m.assignee);
    WorkerInputNames(w, s, wk, m.task);
    var puts := Outcome(w.cfg, m.task, WorkerInputs(w, s, wk, m.task));
    var todo := Uploads(wk, puts);
    var s1 := s.(caches := s.caches[wk := c.(ins := InsertAll(c.ins, Pairs([], s.bucket), w.size))],
                 flights := s.flights + todo);
    var l := Pickup(wk, id, s.clock, []);
    ExtendRun(w, init, states, labels, l, s1);
    states', labels' := LandAll(w, init, states + [s1], labels + [l], todo);
    ContinuesFurther(w, init, states, labels, states + [s1], labels + [l], states', labels');
    forall o | o in m.task.outputs ensures o.uri in Last(states').bucket {
      assert Flight(wk, o.uri, puts[o.uri], false) in todo;
    }
  }

  // ------------------------------------------------------------------------
  // What workers can still produce
  // ------------------------------------------------------------------------

  ghost predicate InFlight(s: State, u: Uri) { exists f :: f in s.flights && !f.landed && f.uri == u }

  /** Artifact `u` of job `id` is neither stored nor on its way, and the job has expired. */
  ghost predicate OutOfReach(cfg: Config, s: State, id: JobId, u: Uri)
  {
    && id in s.orch.manifests && Emits(cfg, id) && Writes(TaskOf(cfg, id), u)
    && u !in s.bucket && !InFlight(s, u) && Expired(s, id)
  }

  /** None of the wanted artifacts is out of reach. */
  ghost predicate Reachable(cfg: Config, s: State, want: set<Uri>)
  {
    forall id: JobId, u {:trigger OutOfReach(cfg, s, id, u)} ::
      u in want && id.epoch == s.orch.cursor ==> !OutOfReach(cfg, s, id, u)
  }

  ghost predicate Stored(want: set<Uri>, bucket: Store) { want <= bucket.Keys }

  /** Job `id` of epoch `e` writes the wanted artifact `u`. */
  ghost predicate Wants(cfg: Config, e: nat, want: set<Uri>, id: JobId, u: Uri)
  {
    Emits(cfg, id) && id.epoch == e && Writes(TaskOf(cfg, id), u) && u in want
  }

  /**
   A set of outputs of the epoch that holds, with an output, everything that its job reads
   from other jobs of the epoch.
   */
  ghost predicate SelfContained(cfg: Config, e: nat, want: set<Uri>)
  {
    && want <= OutputsOf(EpochTasks(cfg, e))
    && forall id, u, x {:trigger Wants(cfg, e, want, id, u), Reads(TaskOf(cfg, id), x)} ::
         Wants(cfg, e, want, id, u) && Reads(TaskOf(cfg, id), x) && x in OutputsOf(EpochTasks(cfg, e)) ==> x in want
  }

  /** The outputs of `t` that are wanted are stored. */
  ghost predicate Finished(t: Task, want: set<Uri>, bucket: Store)
  {
    forall o :: o in t.outputs && o.uri in want ==> o.uri in bucket
  }

  lemma {:induction false} FirstMissing(ts: seq<Task>, want: set<Uri>, bucket: Store, n: nat) returns (i: nat)
    requires n <= |ts| && exists k :: 0 <= k < n && !Finished(ts[k], want, bucket)
    ensures i < n && !Finished(ts[i], want, bucket) && forall j :: 0 <= j < i ==> Finished(ts[j], want, bucket)
  {
    if k :| 0 <= k < n - 1 && !Finished(ts[k], want, bucket) {
      i := FirstMissing(ts, want, bucket, n - 1);
    } else {
      i := n - 1;
    }
  }

  lemma {:induction false} OutputsHaveWriter(ts: seq<Task>, u: Uri) returns (i: nat)
    requires u in OutputsOf(ts)
    ensures i < |ts| && Writes(ts[i], u)
  {
    var n := |ts| - 1;
    if u in OutputsOf(ts[..n]) {
      i := OutputsHaveWriter(ts[..n], u);
    } else {
      i := n;
      RefUrisHaveRef(ts[n].outputs, u);
    }
  }

  lemma {:induction false} RefUrisHaveRef(refs: seq<IORef>, u: Uri)
    requires u in RefUris(refs)
    ensures exists r :: r in refs && r.uri == u
  {
    if u != refs[|refs| - 1].uri {
      RefUrisHaveRef(refs[..|refs| - 1], u);
    }
  }

  /** An input of a job with a wanted output is there once the jobs before it have finished. */
  lemma WantedInputPresent(cfg: Config, init: Store, bucket: Store, e: nat, want: set<Uri>, i: nat, u: Uri, r: IORef)
    requires WellWired(cfg, init) && SelfContained(cfg, e, want)
    requires NothingLost(init, bucket) && (cfg.training ==> WeightsReady(cfg, bucket, e))
    requires i < |EpochTasks(cfg, e)| && forall j :: 0 <= j < i ==> Finished(EpochTasks(cfg, e)[j], want, bucket)
    requires Writes(EpochTasks(cfg, e)[i], u) && u in want && r in EpochTasks(cfg, e)[i].inputs
    ensures r.uri in bucket
  {
    var ts := EpochTasks(cfg, e);
    var id := ts[i].id;
    EpochMembers(cfg, e, ts[i]);
    InputSupplied(cfg, init, id, r);
    if r.uri !in init && !(r.uri == Weights(id.epoch, id.stage) && cfg.training) {
      var p :| Emits(cfg, p) && p.epoch == id.epoch && KeyLess(KeyOf(p), KeyOf(id)) && Writes(TaskOf(cfg, p), r.uri);
      var j := EarlierIsBefore(cfg, e, i, p);
      var o :| o in ts[j].outputs && o.uri == r.uri;
      OutputsMember(ts, ts[j], o);
      assert Wants(cfg, e, want, id, u) && Reads(TaskOf(cfg, id), r.uri);
      assert Finished(ts[j], want, bucket);
    }
  }

  /** While a wanted artifact is missing, some job that should write one has all its inputs. */
  lemma ReadyForWanted(cfg: Config, init: Store, bucket: Store, e: nat, want: set<Uri>) returns (id: JobId, u: Uri)
    requires WellWired(cfg, init) && SelfContained(cfg, e, want)
    requires NothingLost(init, bucket) && (cfg.training ==> WeightsReady(cfg, bucket, e))
    requires !Stored(want, bucket)
    ensures Wants(cfg, e, want, id, u) && u !in bucket
    ensures InputsPresent(TaskOf(cfg, id), bucket) && !OutputsPresent(TaskOf(cfg, id), bucket)
  {
    var ts := EpochTasks(cfg, e);
    var v :| v in want && v !in bucket;
    var k := OutputsHaveWriter(ts, v);
    assert !Finished(ts[k], want, bucket);
    var i := FirstMissing(ts, want, bucket, |ts|);
    var o :| o in ts[i].outputs && o.uri in want && o.uri !in bucket;
    id, u := ts[i].id, o.uri;
    EpochMembers(cfg, e, ts[i]);
    forall r | r in ts[i].inputs ensures r.uri in bucket {
      WantedInputPresent(cfg, init, bucket, e, want, i, u, r);
    }
  }

  /** No job that should still write a wanted artifact has expired. */
  ghost predicate NoneExpired(cfg: Config, s: State, want: set<Uri>, e: nat)
  {
    forall id, u {:trigger Wants(cfg, e, want, id, u)} ::
      Wants(cfg, e, want, id, u) && u !in s.bucket && id in s.orch.manifests ==> !Expired(s, id)
  }

  /** With no upload pending and nothing out of reach, job after job can be executed until all is stored. */
  lemma {:induction false} ExecuteWanted(w: World, init: Store, states: seq<State>, labels: seq<Label>,
                                         want: set<Uri>, e: nat)
    returns (states': seq<State>, labels': seq<Label>)
    requires ValidRun(w, init, states, labels) && WellWired(w.cfg, init) && GraphsTotal(w.cfg)
    requires Last(states).orch.cursor == e && e in Last(states).orch.emitted && SelfContained(w.cfg, e, want)
    requires NoneExpired(w.cfg, Last(states), want, e)
    ensures Continues(w, init, states, labels, states', labels') && Stored(want, Last(states').bucket)
    decreases Missing(want, Last(states).bucket)
  {
    states', labels' := states, labels;
    var s := Last(states);
    if !Stored(want, s.bucket) {
      RunCloses(w, init, states, labels, |states| - 1);
      var id, u := ReadyForWanted(w.cfg, init, s.bucket, e, want);
      assert id in s.orch.manifests && s.orch.manifests[id].task == TaskOf(w.cfg, id);
      var states1, labels1 := ExecuteFully(w, init, states, labels, id);
      Smaller(want - Last(states1).bucket.Keys, want - s.bucket.Keys, u);
      states', labels' := ExecuteWanted(w, init, states1, labels1, want, e);
      ContinuesFurther(w, init, states, labels, states1, labels1, states', labels');
    }
  }

  /** If no wanted artifact is out of reach, workers alone can store them all. */
  lemma WorkersCan(w: World, init: Store, states: seq<State>, labels: seq<Label>, want: set<Uri>)
    returns (states': seq<State>, labels': seq<Label>)
    requires ValidRun(w, init, states, labels) && WellWired(w.cfg, init) && GraphsTotal(w.cfg)
    requires Last(states).orch.cursor in Last(states).orch.emitted
    requires SelfContained(w.cfg, Last(states).orch.cursor, want) && Reachable(w.cfg, Last(states), want)
    ensures Continues(w, init, states, labels, states', labels') && Stored(want, Last(states').bucket)
  {
    var s := Last(states);
    var todo := set f | f in s.flights && !f.landed;
    var states1, labels1 := LandAll(w, init, states, labels, todo);
    var s1 := Last(states1);
    forall id, u | Wants(w.cfg, s.orch.cursor, want, id, u) && u !in s1.bucket && id in s1.orch.manifests
      ensures !Expired(s1, id)
    {
      assert !OutOfReach(w.cfg, s, id, u);
      assert !InFlight(s, u);
    }
    states', labels' := ExecuteWanted(w, init, states1, labels1, want, s.orch.cursor);
    ContinuesFurther(w, init, states, labels, states1, labels1, states', labels');
  }

  // ------------------------------------------------------------------------
  // What workers can no longer produce
  // ------------------------------------------------------------------------

  /** As long as the job's manifest is left alone, an artifact that is out of reach stays so. */
  lemma StaysOutOfReach(w: World, s: State, l: Label, s': State, id: JobId, u: Uri)
    requires |w.cfg.stages| > 0 && Next(w, s, l, s') && ManifestsOk(w.cfg, s.orch) && OutOfReach(w.cfg, s, id, u)
    requires id in s'.orch.manifests && s'.orch.manifests[id] == s.orch.manifests[id]
    ensures OutOfReach(w.cfg, s', id, u)
  {
    if l.Pickup? && InFlight(s', u) {
      var f :| f in s'.flights && !f.landed && f.uri == u;
      assert f !in s.flights;
      OneWriter(w.cfg, id, l.id, u);
    } else if l.Land? {
      assert l.flight.uri != u;
    }
  }

  lemma OneWriter(cfg: Config, id: JobId, p: JobId, u: Uri)
    requires id.stage < |cfg.stages| && p.stage < |cfg.stages|
    requires Writes(TaskOf(cfg, id), u) && Writes(TaskOf(cfg, p), u)
    ensures id == p
  {
    TaskWiring(cfg, id, u);
    TaskWiring(cfg, p, u);
  }

  ghost predicate OnlyWorkers(labels: seq<Label>, i: nat) { forall m :: i <= m < |labels| ==> ByWorker(labels[m]) }

  lemma GoesOn(states: seq<State>, labels: seq<Label>, states': seq<State>, labels': seq<Label>)
    requires |states| == |labels| + 1 && |states'| == |labels'| + 1 && states <= states' && labels <= labels'
    requires forall i :: |labels| <= i < |labels'| ==> ByWorker(labels'[i])
    ensures |labels| < |states'| && states'[|labels|] == Last(states) && OnlyWorkers(labels', |labels|)
  {
  }

  lemma OutOfReachNext(w: World, init: Store, states: seq<State>, labels: seq<Label>, j: nat, id: JobId, u: Uri)
    requires ValidRun(w, init, states, labels) && j < |labels| && ByWorker(labels[j])
    requires OutOfReach(w.cfg, states[j], id, u)
    ensures OutOfReach(w.cfg, states[j + 1], id, u)
  {
    RunOrch(w, init, states, labels, j, j);
    assert StepAt(w, states, labels, j);
    StaysOutOfReach(w, states[j], labels[j], states[j + 1], id, u);
  }

  lemma {:induction false} WorkersCannot(w: World, init: Store, states: seq<State>, labels: seq<Label>, i: nat, j: nat,
                                         id: JobId, u: Uri)
    requires ValidRun(w, init, states, labels) && i <= j < |states| && OnlyWorkers(labels, i)
    requires OutOfReach(w.cfg, states[i], id, u)
    ensures OutOfReach(w.cfg, states[j], id, u)
    decreases j
  {
    if i < j {
      WorkersCannot(w, init, states, labels, i, j - 1, id, u);
      OutOfReachNext(w, init, states, labels, j - 1, id, u);
    }
  }

  lemma StoredWasReachable(w: World, init: Store, states: seq<State>, labels: seq<Label>,
                           states': seq<State>, labels': seq<Label>, want: set<Uri>)
    requires Continues(w, init, states, labels, states', labels') && Stored(want, Last(states').bucket)
    ensures Reachable(w.cfg, Last(states), want)
  {
    forall id: JobId, u | u in want && id.epoch == Last(states).orch.cursor
      ensures !OutOfReach(w.cfg, Last(states), id, u)
    {
      if OutOfReach(w.cfg, Last(states), id, u) {
        GoesOn(states, labels, states', labels');
        WorkersCannot(w, init, states', labels', |labels|, |states'| - 1, id, u);
      }
    }
  }

  /** Some continuation by workers alone stores everything wanted. */
  ghost predicate CanStore(w: World, init: Store, states: seq<State>, labels: seq<Label>, want: set<Uri>)
  {
    exists states', labels' ::
      Continues(w, init, states, labels, states', labels') && Stored(want, Last(states').bucket)
  }

  /**
   From any reachable state whose epoch is emitted, workers alone can store a self-contained
   set of outputs exactly when none of them is out of reach.
   */
  lemma CanStoreIff(w: World, init: Store, states: seq<State>, labels: seq<Label>, want: set<Uri>)
    requires ValidRun(w, init, states, labels) && WellWired(w.cfg, init) && GraphsTotal(w.cfg)
    requires Last(states).orch.cursor in Last(states).orch.emitted
    requires SelfContained(w.cfg, Last(states).orch.cursor, want)
    ensures CanStore(w, init, states, labels, want) <==> Reachable(w.cfg, Last(states), want)
  {
    if Reachable(w.cfg, Last(states), want) {
      var states', labels' := WorkersCan(w, init, states, labels, want);
    }
    if CanStore(w, init, states, labels, want) {
      var states', labels' :|
        Continues(w, init, states, labels, states', labels') && Stored(want, Last(states').bucket);
      StoredWasReachable(w, init, states, labels, states', labels', want);
    }
  }

  /** Workers alone can store every output of the epoch exactly when no output is out of reach. */
  lemma AllOutputsIff(w: World, init: Store, states: seq<State>, labels: seq<Label>)
    requires ValidRun(w, init, states, labels) && WellWired(w.cfg, init) && GraphsTotal(w.cfg)
    requires Last(states).orch.cursor in Last(states).orch.emitted
    ensures var outs := OutputsOf(EpochTasks(w.cfg, Last(states).orch.cursor));
            CanStore(w, init, states, labels, outs) <==> Reachable(w.cfg, Last(states), outs)
  {
    CanStoreIff(w, init, states, labels, OutputsOf(EpochTasks(w.cfg, Last(states).orch.cursor)));
  }

  // ------------------------------------------------------------------------
  // The epoch check
  // ------------------------------------------------------------------------

  /** What the epoch check looks at: the tail's markers and, in training, the next weights. */
  ghost predicate Checked(cfg: Config, e: nat, u: Uri)
  {
    || (u.DoneMark? && u.epoch == e && u.stage + 1 == |cfg.stages| && u.mb < cfg.microbatches)
    || (u.Weights? && u.epoch == e + 1 && u.stage < |cfg.stages| && cfg.training && cfg.stages[u.stage].hasOuter)
  }

  ghost predicate Needed(cfg: Config, e: nat, u: Uri)
  {
    Checked(cfg, e, u) || exists id :: ReadBy(cfg, e, id, u)
  }

  ghost predicate ReadBy(cfg: Config, e: nat, id: JobId, u: Uri)
  {
    Emits(cfg, id) && id.epoch == e && Feeds(cfg, id) && Reads(TaskOf(cfg, id), u)
  }

  /** The outputs of the epoch's jobs that the epoch check waits for, directly or through a later job. */
  ghost function NeededOutputs(cfg: Config, e: nat): set<Uri>
  {
    set u | u in OutputsOf(EpochTasks(cfg, e)) && Needed(cfg, e, u)
  }

  lemma FwdReadsChain(cfg: Config, p: JobId, r: IORef)
    requires p.Fwd? && p.stage < |cfg.stages| && r in TaskOf(cfg, p).inputs && (r.uri.FwdOut? || r.uri.DoneMark?)
    ensures r.uri.FwdOut? && r.uri.stage + 1 == p.stage && |cfg.stages[p.stage].fwdIn| > 0
  {
    StaticRefsAreStatic(cfg, p.stage, |cfg.statics|);
  }

  lemma FeedsBefore(cfg: Config, id: JobId, p: JobId)
    requires Feeds(cfg, p) && id.stage + 1 == p.stage < |cfg.stages| && |cfg.stages[p.stage].fwdIn| > 0
    ensures Feeds(cfg, id)
  {
  }

  /** The writer of a needed artifact is itself needed by the tail. */
  lemma NeededWriterFeeds(cfg: Config, e: nat, id: JobId, u: Uri)
    requires Emits(cfg, id) && id.epoch == e && Producer(u) == Some(id) && Needed(cfg, e, u)
    ensures Feeds(cfg, id)
  {
    if !cfg.training && !Checked(cfg, e, u) {
      var p :| ReadBy(cfg, e, p, u);
      var r :| r in TaskOf(cfg, p).inputs && r.uri == u;
      FwdReadsChain(cfg, p, r);
      FeedsBefore(cfg, id, p);
    }
  }

  lemma NeededSelfContained(cfg: Config, e: nat)
    ensures SelfContained(cfg, e, NeededOutputs(cfg, e))
  {
    var want := NeededOutputs(cfg, e);
    forall id, u, x | Wants(cfg, e, want, id, u) && Reads(TaskOf(cfg, id), x) && x in OutputsOf(EpochTasks(cfg, e))
      ensures x in want
    {
      TaskWiring(cfg, id, u);
      NeededWriterFeeds(cfg, e, id, u);
      assert ReadBy(cfg, e, id, x);
    }
  }

  lemma CheckedIsOutput(cfg: Config, e: nat, u: Uri)
    requires Checked(cfg, e, u)
    ensures u in NeededOutputs(cfg, e)
  {
    var t := if u.DoneMark? then FwdTask(cfg, e, u.stage, u.mb) else OuterTask(cfg, e, u.stage);
    EpochMembers(cfg, e, t);
    if u.DoneMark? {
      TailMarks(cfg, e, u.stage, u.mb);
    } else {
      OuterConnects(cfg, e, u.stage, 0);
    }
    var o :| o in t.outputs && o.uri == u;
    OutputsMember(EpochTasks(cfg, e), t, o);
  }

  /** The epoch check passes exactly when everything it waits for is stored. */
  lemma DoneIffStored(cfg: Config, init: Store, bucket: Store, e: nat)
    requires WellWired(cfg, init) && AllSupported(cfg, init, bucket)
    ensures EpochDone(cfg, bucket, e) <==> Stored(NeededOutputs(cfg, e), bucket)
  {
    CountMeansAll(cfg, init, bucket, e);
    if EpochDone(cfg, bucket, e) {
      EpochDoneCloses(cfg, init, bucket, e);
      forall u | u in NeededOutputs(cfg, e) ensures u in bucket {
        if !Checked(cfg, e, u) {
          var id :| ReadBy(cfg, e, id, u);
          assert InputsPresent(TaskOf(cfg, id), bucket);
        }
      }
    }
    if Stored(NeededOutputs(cfg, e), bucket) {
      forall u | Checked(cfg, e, u) ensures u in bucket {
        CheckedIsOutput(cfg, e, u);
      }
      assert AllDone(cfg, bucket, e) by {
        forall mb: nat, tail: nat | mb < cfg.microbatches && tail + 1 == |cfg.stages|
          ensures DoneMark(e, tail, mb) in bucket
        {
          assert Checked(cfg, e, DoneMark(e, tail, mb));
        }
      }
      if cfg.training {
        forall k: nat | k < |cfg.stages| && cfg.stages[k].hasOuter ensures Weights(e + 1, k) in bucket {
          assert Checked(cfg, e, Weights(e + 1, k));
        }
      }
    }
  }

  /** Some continuation by workers alone makes the check of epoch `e` pass. */
  ghost predicate CanFinish(w: World, init: Store, states: seq<State>, labels: seq<Label>, e: nat)
  {
    exists states', labels' ::
      Continues(w, init, states, labels, states', labels') && EpochDone(w.cfg, Last(states').bucket, e)
  }

  /**
   From any reachable state whose epoch is emitted, whatever was retried, evicted, lost or
   restarted before, workers alone can finish the epoch exactly when every job with a needed
   output neither stored nor in flight has no deadline or one that the clock has not passed.
   */
  lemma EpochCanFinish(w: World, init: Store, states: seq<State>, labels: seq<Label>)
    requires ValidRun(w, init, states, labels) && WellWired(w.cfg, init) && GraphsTotal(w.cfg)
    requires Last(states).orch.cursor in Last(states).orch.emitted
    ensures var e := Last(states).orch.cursor;
            CanFinish(w, init, states, labels, e) <==> Reachable(w.cfg, Last(states), NeededOutputs(w.cfg, e))
  {
    var e := Last(states).orch.cursor;
    var want := NeededOutputs(w.cfg, e);
    NeededSelfContained(w.cfg, e);
    CanStoreIff(w, init, states, labels, want);
    forall states', labels' | Continues(w, init, states, labels, states', labels')
      ensures EpochDone(w.cfg, Last(states').bucket, e) <==> Stored(want, Last(states').bucket)
    {
      RunCloses(w, init, states', labels', |states'| - 1);
      DoneIffStored(w.cfg, init, Last(states').bucket, e);
    }
  }

  // ------------------------------------------------------------------------
  // A restart can strand an epoch
  // ------------------------------------------------------------------------

  lemma CursorStays(w: World, s: State, l: Label, s': State)
    requires |w.cfg.stages| > 0 && Next(w, s, l, s') && !EpochDone(w.cfg, s.bucket, s.orch.cursor)
    requires l.OrchResume? ==> l.e == 0
    ensures s'.orch.cursor == s.orch.cursor
  {
  }

  /** The epoch is stuck on artifact `u` of job `id`. */
  ghost predicate StuckOn(w: World, s: State, id: JobId, u: Uri)
  {
    && ClockLost(w, s.orch) && s.orch.cursor == id.epoch
    && OutOfReach(w.cfg, s, id, u) && u in NeededOutputs(w.cfg, id.epoch)
  }

  lemma StuckIsNotDone(w: World, init: Store, s: State, id: JobId, u: Uri)
    requires WellWired(w.cfg, init) && AllSupported(w.cfg, init, s.bucket) && StuckOn(w, s, id, u)
    ensures !EpochDone(w.cfg, s.bucket, id.epoch)
  {
    DoneIffStored(w.cfg, init, s.bucket, id.epoch);
  }

  lemma StaysStuck(w: World, init: Store, s: State, l: Label, s': State, id: JobId, u: Uri)
    requires WellWired(w.cfg, init) && AllSupported(w.cfg, init, s.bucket) && ManifestsOk(w.cfg, s.orch)
    requires Next(w, s, l, s') && StuckOn(w, s, id, u) && (l.OrchResume? ==> l.e == 0)
    ensures StuckOn(w, s', id, u)
  {
    StuckIsNotDone(w, init, s, id, u);
    CursorStays(w, s, l, s');
    StepWithoutClock(w, s, l, s');
    StaysOutOfReach(w, s, l, s', id, u);
  }

  lemma StrandedStep(w: World, init: Store, states: seq<State>, labels: seq<Label>, j: nat, id: JobId, u: Uri)
    requires ValidRun(w, init, states, labels) && j < |labels| && WellWired(w.cfg, init)
    requires StuckOn(w, states[j], id, u) && (labels[j].OrchResume? ==> labels[j].e == 0)
    ensures StuckOn(w, states[j + 1], id, u)
  {
    RunCloses(w, init, states, labels, j);
    assert StepAt(w, states, labels, j);
    StaysStuck(w, init, states[j], labels[j], states[j + 1], id, u);
  }

  lemma StrandedNow(w: World, init: Store, states: seq<State>, labels: seq<Label>, j: nat, id: JobId, u: Uri)
    requires ValidRun(w, init, states, labels) && j < |states| && WellWired(w.cfg, init)
    requires StuckOn(w, states[j], id, u)
    ensures !EpochDone(w.cfg, states[j].bucket, id.epoch)
  {
    RunCloses(w, init, states, labels, j);
    StuckIsNotDone(w, init, states[j], id, u);
  }

  /**
   Once the orchestrator has lost its clock for the epoch and a needed artifact is out of reach, no step
   of any worker or of the orchestrator finishes the epoch: only a resume at another epoch leaves it.
   */
  lemma {:induction false} Stranded(w: World, init: Store, states: seq<State>, labels: seq<Label>, i: nat, j: nat,
                                    id: JobId, u: Uri)
    requires ValidRun(w, init, states, labels) && i <= j < |states| && WellWired(w.cfg, init)
    requires StuckOn(w, states[i], id, u)
    requires forall m :: i <= m < j && labels[m].OrchResume? ==> labels[m].e == 0
    ensures StuckOn(w, states[j], id, u) && !EpochDone(w.cfg, states[j].bucket, id.epoch)
    decreases j
  {
    if i < j {
      Stranded(w, init, states, labels, i, j - 1, id, u);
      StrandedStep(w, init, states, labels, j - 1, id, u);
    }
    StrandedNow(w, init, states, labels, j, id, u);
  }

  // ------------------------------------------------------------------------
  // Every deployment has such a run
  // ------------------------------------------------------------------------

  /** A worker just seen that serves every stage. */
  function Everywhere(wk: WorkerId, n: nat, now: int): WorkerInfo { WorkerInfo(wk, now, Some(seq(n, i => i)), 0.0, 0) }

  lemma InEveryList(wk: WorkerId, n: nat, evicted: set<WorkerId>, now: int, s: nat)
    requires wk !in evicted && s < n
    ensures wk in StageTable(n, [Everywhere(wk, n, now)], evicted, now)[s]
  {
    var infos := [Everywhere(wk, n, now)];
    assert infos[0].stages.value[s] == s;
    assert infos[0] in infos && Eligible(infos[0], evicted, now, s);
    StageTableSpec(n, infos, evicted, now, s, wk);
  }

  lemma OneWorkerCovers(wk: WorkerId, n: nat, evicted: set<WorkerId>, now: int)
    requires wk !in evicted
    ensures Coverage(StageTable(n, [Everywhere(wk, n, now)], evicted, now))
  {
    forall s | 0 <= s < n ensures |StageTable(n, [Everywhere(wk, n, now)], evicted, now)[s]| > 0 {
      InEveryList(wk, n, evicted, now, s);
    }
  }

  lemma OnlyWorker(wk: WorkerId, n: nat, evicted: set<WorkerId>, now: int, s: nat, x: WorkerId)
    requires s < n && x in StageTable(n, [Everywhere(wk, n, now)], evicted, now)[s]
    ensures x == wk
  {
    StageTableSpec(n, [Everywhere(wk, n, now)], evicted, now, s, x);
  }

  function Fresh(): Orch { Orch(map[], {}, 0, [], map[], {}, map[]) }

  /** Emission to the one worker. */
  lemma FirstEmission(w: World, now: int, table: seq<seq<WorkerId>>, hosts: map<WorkerId, nat>, id: JobId)
    returns (o: Orch)
    requires |w.cfg.stages| > 0 && table == StageTable(|w.cfg.stages|, [Everywhere(0, |w.cfg.stages|, now)], {}, now)
    requires Coverage(table) && Emits(w.cfg, id) && id.epoch == 0
    ensures o == Emit(w.cfg, w.knobs, Fresh(), table, hosts, now)
    ensures o.cursor == 0 && 0 in o.emitted && o.startedAt == map[0 := now] && o.retried == map[]
    ensures id in o.manifests && o.manifests[id] == Manifest(TaskOf(w.cfg, id), 0, now + w.knobs.deadlineSec, now)
  {
    o := Emit(w.cfg, w.knobs, Fresh(), table, hosts, now);
    EmitSpec(w.cfg, w.knobs, Fresh(), table, hosts, now, id);
    OnlyWorker(0, |w.cfg.stages|, {}, now, id.stage, Assignee(table, hosts, id));
  }

  lemma NothingDone(cfg: Config, init: Store)
    requires |cfg.stages| > 0 && cfg.microbatches > 0 && Given(init)
    ensures !EpochDone(cfg, init, 0)
  {
    forall u | u in init ensures !u.DoneMark? {
      assert Producer(u).None?;
    }
    assert DoneMarks(init, 0, |cfg.stages| - 1) == {};
  }

  /** The first tick that sees a live worker on every stage emits epoch 0, every job of it to that worker. */
  lemma FirstTick(w: World, init: Store, now: int, id: JobId) returns (o: Orch)
    requires |w.cfg.stages| > 0 && w.cfg.microbatches > 0 && w.cfg.maxEpochs > 0 && w.knobs.retryAfter > 0
    requires Given(init) && Emits(w.cfg, id) && id.epoch == 0
    ensures o == Tick(w.cfg, w.knobs, Fresh(), init, [Everywhere(0, |w.cfg.stages|, now)], now, true)
    ensures o.cursor == 0 && 0 in o.emitted && o.startedAt == map[0 := now] && o.retried == map[]
    ensures id in o.manifests && o.manifests[id] == Manifest(TaskOf(w.cfg, id), 0, now + w.knobs.deadlineSec, now)
  {
    var infos := [Everywhere(0, |w.cfg.stages|, now)];
    var table := StageTable(|w.cfg.stages|, infos, {}, now);
    OneWorkerCovers(0, |w.cfg.stages|, {}, now);
    o := FirstEmission(w, now, table, Hosts(infos, {}, now), id);
    NothingDone(w.cfg, init);
    assert Retry(w.cfg, w.knobs, o, init, table, now) == o && Advance(w.cfg, o, init) == o;
  }

  lemma NoWorkersNoTick(w: World, o: Orch, bucket: Store, now: int)
    requires |w.cfg.stages| > 0
    ensures Tick(w.cfg, w.knobs, o, bucket, [], now, true) == o
  {
    assert |StageTable(|w.cfg.stages|, [], o.evicted, now)[0]| == 0;
  }

  lemma ThreeSteps(w: World, init: Store, s0: State, l1: Label, s1: State, l2: Label, s2: State, l3: Label, s3: State)
    returns (states: seq<State>, labels: seq<Label>)
    requires |w.cfg.stages| > 0 && Init(s0, init) && Next(w, s0, l1, s1) && Next(w, s1, l2, s2) && Next(w, s2, l3, s3)
    ensures ValidRun(w, init, states, labels) && Last(states) == s3
  {
    states, labels := [s0, s1, s2, s3], [l1, l2, l3];
    assert StepAt(w, states, labels, 0) && StepAt(w, states, labels, 1) && StepAt(w, states, labels, 2);
  }

  /** The run: emit epoch 0, restart, and wait until the deadline has passed. */
  lemma RestartedRun(w: World, init: Store, now: int, id: JobId) returns (states: seq<State>, labels: seq<Label>)
    requires |w.cfg.stages| > 0 && w.cfg.microbatches > 0 && w.cfg.maxEpochs > 0 && Given(init)
    requires w.knobs.retryAfter > 0 && w.knobs.deadlineSec >= 0 && now > 0 && Emits(w.cfg, id) && id.epoch == 0
    ensures ValidRun(w, init, states, labels)
    ensures var s := Last(states);
            && s.bucket == init && s.flights == {} && s.orch.cursor == 0 && ClockLost(w, s.orch)
            && id in s.orch.manifests && Expired(s, id)
  {
    var late := now + w.knobs.deadlineSec + 1;
    var s0 := State(Fresh(), init, map[], {}, now);
    var o1 := FirstTick(w, init, now, id);
    var s1 := s0.(orch := o1);
    var s2 := s1.(orch := o1.(startedAt := map[]));
    var s3 := s2.(clock := late);
    NoWorkersNoTick(w, s2.orch, init, late);
    var l1 := OrchTick([Everywhere(0, |w.cfg.stages|, now)], now, true);
    states, labels := ThreeSteps(w, init, s0, l1, s1, OrchResume(0), s2, OrchTick([], late, true), s3);
  }

  /**
   With any deadline, an epoch can be stranded: emit it, restart the orchestrator, and let the deadline
   pass while no worker is up. Then neither workers nor the orchestrator finish it any more.
   */
  lemma RestartCanStrand(w: World, init: Store, now: int) returns (states: seq<State>, labels: seq<Label>)
    requires WellWired(w.cfg, init) && w.cfg.microbatches > 0 && w.cfg.maxEpochs > 0
    requires w.knobs.retryAfter > 0 && w.knobs.deadlineSec >= 0 && now > 0
    ensures ValidRun(w, init, states, labels) && ClockLost(w, Last(states).orch)
    ensures exists id, u :: StuckOn(w, Last(states), id, u)
    ensures !CanFinish(w, init, states, labels, Last(states).orch.cursor)
  {
    var tail := |w.cfg.stages| - 1;
    var id, u := Fwd(0, tail, 0), DoneMark(0, tail, 0);
    states, labels := RestartedRun(w, init, now, id);
    TailStuck(w, init, Last(states), id, u);
    StuckCannotFinish(w, init, states, labels, id, u);
  }

  /** The first marker of the tail, once its job has expired with the clock lost. */
  lemma TailStuck(w: World, init: Store, s: State, id: JobId, u: Uri)
    requires |w.cfg.stages| > 0 && w.cfg.microbatches > 0 && Given(init) && s.bucket == init && s.flights == {}
    requires id == Fwd(0, |w.cfg.stages| - 1, 0) && u == DoneMark(0, |w.cfg.stages| - 1, 0)
    requires s.orch.cursor == 0 && ClockLost(w, s.orch) && id in s.orch.manifests && Expired(s, id)
    ensures StuckOn(w, s, id, u)
  {
    CheckedIsOutput(w.cfg, 0, u);
    TailMarks(w.cfg, 0, |w.cfg.stages| - 1, 0);
    assert Producer(u).Some?;
  }

  lemma StuckCannotFinish(w: World, init: Store, states: seq<State>, labels: seq<Label>, id: JobId, u: Uri)
    requires ValidRun(w, init, states, labels) && WellWired(w.cfg, init) && StuckOn(w, Last(states), id, u)
    ensures !CanFinish(w, init, states, labels, id.epoch)
  {
    forall states', labels' | Continues(w, init, states, labels, states', labels')
      ensures !EpochDone(w.cfg, Last(states').bucket, id.epoch)
    {
      StuckInEvery(w, init, states, labels, states', labels', id, u);
    }
  }

  lemma StuckInEvery(w: World, init: Store, states: seq<State>, labels: seq<Label>, states': seq<State>,
                     labels': seq<Label>, id: JobId, u: Uri)
    requires Continues(w, init, states, labels, states', labels') && WellWired(w.cfg, init)
    requires StuckOn(w, Last(states), id, u)
    ensures !EpochDone(w.cfg, Last(states').bucket, id.epoch)
  {
    GoesOn(states, labels, states', labels');
    StuckFrom(w, init, states', labels', |labels|, id, u);
  }

  lemma StuckFrom(w: World, init: Store, states: seq<State>, labels: seq<Label>, i: nat, id: JobId, u: Uri)
    requires ValidRun(w, init, states, labels) && WellWired(w.cfg, init) && i < |states| && OnlyWorkers(labels, i)
    requires StuckOn(w, states[i], id, u)
    ensures !EpochDone(w.cfg, Last(states).bucket, id.epoch)
  {
    Stranded(w, init, states, labels, i, |states| - 1, id, u);
  }
}
