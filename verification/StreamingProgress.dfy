/**
 What every run of the streaming system guarantees beyond the values it computes:
 transparent caches, a safe cursor, and freedom from deadlock.
 */
module StreamingProgress {
  import opened Common
  import opened Pipeline
  import opened Dataflow
  import opened StreamingOrch
  import opened WorkerCache
  import opened StreamingRuns
  import opened StreamingTheorems

  /**
   In every reachable state, a cached tensor is the one that the bucket holds, and both caches keep their
   invariant.
   */
  lemma CachesTransparent(w: World, init: Store, states: seq<State>, labels: seq<Label>, i: nat, wk: WorkerId, u: Uri)
    requires ValidRun(w, init, states, labels) && i < |states| && Bootstrapped(w.cfg, init) && NamesOk(w.cfg)
    ensures CachesValid(w, CachesOf(w, states[i], wk))
    ensures u in CachedKeys(CachesOf(w, states[i], wk)) ==> u in states[i].bucket
    ensures u in states[i].bucket ==> Read(CachesOf(w, states[i], wk), states[i].bucket, u) == states[i].bucket[u]
  {
    var s := states[i];
    RunCloses(w, init, states, labels, i);
    CachesOfClosed(w, init, s, wk);
    var n := Horizon(s.orch.emitted);
    SequentialIsReference(w.cfg, init, n);
    InitWithin(w.cfg, init, n);
    var f := SequentialRun(w.cfg, init, n);
    RunAgrees(w, init, f, n, states, labels, i);
    assert CachesAgree(CachesOf(w, s, wk), f);
  }

  // ------------------------------------------------------------------------
  // Advance
  // ------------------------------------------------------------------------

  /** A set of done markers with microbatches below `n` that has `n` elements holds all of them. */
  lemma {:induction false} AllMarks(marks: set<Uri>, e: nat, s: nat, n: nat)
    requires forall u :: u in marks ==> u.DoneMark? && u.epoch == e && u.stage == s && u.mb < n
    ensures |marks| <= n
    ensures |marks| == n ==> forall mb :: 0 <= mb < n ==> DoneMark(e, s, mb) in marks
  {
    if n > 0 {
      var last := DoneMark(e, s, n - 1);
      var rest := marks - {last};
      AllMarks(rest, e, s, n - 1);
      assert marks == if last in marks then rest + {last} else rest;
    } else if u :| u in marks {
      assert false;
    } else {
      assert marks == {};
    }
  }

  ghost predicate AllDone(cfg: Config, bucket: Store, e: nat)
  {
    forall mb: nat, tail: nat :: mb < cfg.microbatches && tail + 1 == |cfg.stages| ==> DoneMark(e, tail, mb) in bucket
  }

  /** The marker count reaches the number of microbatches exactly when every microbatch has its marker. */
  lemma CountMeansAll(cfg: Config, init: Store, bucket: Store, e: nat)
    requires |cfg.stages| > 0 && AllSupported(cfg, init, bucket)
    ensures |DoneMarks(bucket, e, |cfg.stages| - 1)| >= cfg.microbatches <==> AllDone(cfg, bucket, e)
  {
    var tail: nat, m := |cfg.stages| - 1, cfg.microbatches;
    var marks := DoneMarks(bucket, e, tail);
    forall u | u in marks ensures u.mb < m {
      assert Supported(cfg, init, bucket, u);
    }
    AllMarks(marks, e, tail, m);
    if AllDone(cfg, bucket, e) {
      ManyMarks(marks, e, tail, m);
    }
  }

  lemma {:induction false} ManyMarks(marks: set<Uri>, e: nat, s: nat, n: nat)
    requires forall mb :: 0 <= mb < n ==> DoneMark(e, s, mb) in marks
    ensures |marks| >= n
  {
    if n > 0 {
      ManyMarks(marks - {DoneMark(e, s, n - 1)}, e, s, n - 1);
    }
  }

  /** The tail needs the job: in training always, forward-only when every later stage reads from the one before it. */
  ghost predicate Feeds(cfg: Config, id: JobId)
  {
    cfg.training || forall j :: id.stage < j < |cfg.stages| ==> |cfg.stages[j].fwdIn| > 0
  }

  /** Every input of every job of epoch `e` that the tail needs is in the bucket. */
  ghost predicate InputsClosed(cfg: Config, bucket: Store, e: nat)
  {
    forall id :: Emits(cfg, id) && id.epoch == e && Feeds(cfg, id) ==> InputsPresent(TaskOf(cfg, id), bucket)
  }

  ghost predicate FullyTrained(cfg: Config)
  {
    cfg.training && forall s :: 0 <= s < |cfg.stages| ==> cfg.stages[s].hasBackward && cfg.stages[s].hasOuter
  }

  /** An artifact in the bucket vouches for the inputs of the job that writes it. */
  lemma WriterClosed(cfg: Config, init: Store, bucket: Store, id: JobId, u: Uri)
    requires AllSupported(cfg, init, bucket) && u in bucket && Producer(u) == Some(id)
    ensures Emits(cfg, id) && InputsPresent(TaskOf(cfg, id), bucket)
    ensures forall x :: Reads(TaskOf(cfg, id), x) ==> x in bucket
  {
    assert Supported(cfg, init, bucket, u);
  }

  lemma OuterClosed(cfg: Config, init: Store, bucket: Store, e: nat, k: nat, mb: nat)
    requires AllSupported(cfg, init, bucket) && Weights(e + 1, k) in bucket
    ensures Emits(cfg, Outer(e, k)) && InputsPresent(TaskOf(cfg, Outer(e, k)), bucket)
    ensures mb < cfg.microbatches ==> BwdOut(e, k, mb, "dW") in bucket
  {
    WriterClosed(cfg, init, bucket, Outer(e, k), Weights(e + 1, k));
    OuterConnects(cfg, e, k, mb);
  }

  lemma BwdClosed(cfg: Config, init: Store, bucket: Store, e: nat, k: nat, mb: nat)
    requires AllSupported(cfg, init, bucket) && BwdOut(e, k, mb, "dW") in bucket
    ensures Emits(cfg, Bwd(e, k, mb)) && InputsPresent(TaskOf(cfg, Bwd(e, k, mb)), bucket)
    ensures k > 0 ==> Emits(cfg, Fwd(e, k - 1, mb)) && InputsPresent(TaskOf(cfg, Fwd(e, k - 1, mb)), bucket)
  {
    WriterClosed(cfg, init, bucket, Bwd(e, k, mb), BwdOut(e, k, mb, "dW"));
    BwdConnects(cfg, e, k, mb);
    if k > 0 {
      WriterClosed(cfg, init, bucket, Fwd(e, k - 1, mb), FwdOut(e, k - 1, mb, "x"));
    }
  }

  lemma JobClosed(cfg: Config, init: Store, bucket: Store, id: JobId)
    requires FullyTrained(cfg) && AllSupported(cfg, init, bucket) && Emits(cfg, id)
    requires AllDone(cfg, bucket, id.epoch) && WeightsReady(cfg, bucket, id.epoch + 1)
    ensures InputsPresent(TaskOf(cfg, id), bucket)
  {
    match id
    case Outer(e, k) => OuterClosed(cfg, init, bucket, e, k, 0);
    case Bwd(e, k, mb) =>
      OuterClosed(cfg, init, bucket, e, k, mb);
      BwdClosed(cfg, init, bucket, e, k, mb);
    case Fwd(e, k, mb) =>
      if k + 1 < |cfg.stages| {
        OuterClosed(cfg, init, bucket, e, k + 1, mb);
        BwdClosed(cfg, init, bucket, e, k + 1, mb);
      } else {
        WriterClosed(cfg, init, bucket, Fwd(e, k, mb), DoneMark(e, k, mb));
      }
  }

  /** Forward-only runs: a done marker at the tail vouches for every stage before it. */
  lemma {:induction false} ForwardChain(cfg: Config, init: Store, bucket: Store, e: nat, mb: nat, k: nat)
    requires AllSupported(cfg, init, bucket) && k < |cfg.stages|
    requires forall j :: k < j < |cfg.stages| ==> |cfg.stages[j].fwdIn| > 0
    requires DoneMark(e, |cfg.stages| - 1, mb) in bucket
    ensures Emits(cfg, Fwd(e, k, mb)) && InputsPresent(TaskOf(cfg, Fwd(e, k, mb)), bucket)
    decreases |cfg.stages| - k
  {
    if k + 1 == |cfg.stages| {
      WriterClosed(cfg, init, bucket, Fwd(e, k, mb), DoneMark(e, k, mb));
    } else {
      ForwardChain(cfg, init, bucket, e, mb, k + 1);
      var name := cfg.stages[k + 1].fwdIn[0];
      FwdConnects(cfg, e, k + 1, mb, name);
      WriterClosed(cfg, init, bucket, Fwd(e, k, mb), FwdOut(e, k, mb, name));
    }
  }

  /**
   When the epoch check passes, every done marker exists, in training every stage's next
   weights exist, and so does everything that any job needed by the tail consumes.
   */
  lemma EpochDoneCloses(cfg: Config, init: Store, bucket: Store, e: nat)
    requires |cfg.stages| > 0 && AllSupported(cfg, init, bucket)
    requires EpochDone(cfg, bucket, e)
    ensures AllDone(cfg, bucket, e) && (cfg.training ==> WeightsReady(cfg, bucket, e + 1))
    ensures (cfg.training ==> FullyTrained(cfg)) ==> InputsClosed(cfg, bucket, e)
  {
    CountMeansAll(cfg, init, bucket, e);
    if cfg.training ==> FullyTrained(cfg) {
      forall id | Emits(cfg, id) && id.epoch == e && Feeds(cfg, id) ensures InputsPresent(TaskOf(cfg, id), bucket) {
        if cfg.training {
          JobClosed(cfg, init, bucket, id);
        } else {
          ForwardChain(cfg, init, bucket, e, id.mb, id.stage);
        }
      }
    }
  }

  /**
   The cursor in every run: the completed list is exactly 0..cursor-1, a tick moves the cursor by
   one and only when it saw the epoch closed, and nothing else but a resume moves it.
   */
  lemma AdvanceSafety(w: World, init: Store, states: seq<State>, labels: seq<Label>, i: nat)
    requires ValidRun(w, init, states, labels) && i < |labels| && Bootstrapped(w.cfg, init)
    ensures states[i].orch.completed == Range(states[i].orch.cursor)
    ensures var e := states[i].orch.cursor;
            states[i + 1].orch.cursor != e && labels[i].OrchTick? ==>
              && states[i + 1].orch.cursor == e + 1
              && AllDone(w.cfg, states[i].bucket, e)
              && (w.cfg.training ==> WeightsReady(w.cfg, states[i].bucket, e + 1))
              && ((w.cfg.training ==> FullyTrained(w.cfg)) ==> InputsClosed(w.cfg, states[i].bucket, e))
    ensures states[i + 1].orch.cursor != states[i].orch.cursor ==> labels[i].OrchTick? || labels[i].OrchResume?
    ensures w.cfg.training ==> WeightsReady(w.cfg, states[i].bucket, states[i].orch.cursor)
  {
    var s := states[i];
    RunCloses(w, init, states, labels, i);
    assert StepAt(w, states, labels, i);
    if labels[i].OrchTick? {
      TickKeeps(w, s.orch, s.bucket, labels[i].infos, labels[i].now, labels[i].graceOver);
      if states[i + 1].orch.cursor != s.orch.cursor {
        EpochDoneCloses(w.cfg, init, s.bucket, s.orch.cursor);
      }
    }
  }

  // ------------------------------------------------------------------------
  // No deadlock
  // ------------------------------------------------------------------------

  /** Consecutive stages fit together, every stage can be trained, and the given artifacts are there. */
  ghost predicate WellWired(cfg: Config, init: Store)
  {
    && |cfg.stages| > 0
    && Bootstrapped(cfg, init)
    && (forall s, name :: 0 < s < |cfg.stages| && name in cfg.stages[s].fwdIn ==> name in cfg.stages[s - 1].fwdOut)
    && (cfg.training ==> FullyTrained(cfg))
    && (cfg.training ==> forall s :: 0 < s < |cfg.stages| ==> cfg.stages[s].emitsDx)
    && (cfg.training ==> forall s :: 0 <= s < |cfg.stages| - 1 ==> "x" in cfg.stages[s].fwdOut)
    && (NamesTarget(cfg) ==> StaticBlob(cfg.target.value) in init)
    && (forall j :: 0 <= j < |cfg.statics| ==> StaticBlob(cfg.statics[j].key) in init)
  }

  /** Where an input comes from: given, this epoch's weights, or an earlier job of the same epoch. */
  ghost predicate Supplied(cfg: Config, init: Store, id: JobId, u: Uri)
    requires id.stage < |cfg.stages|
  {
    || u in init
    || (u == Weights(id.epoch, id.stage) && cfg.training)
    || exists p :: Emits(cfg, p) && p.epoch == id.epoch && KeyLess(KeyOf(p), KeyOf(id)) && Writes(TaskOf(cfg, p), u)
  }

  lemma FwdSupplied(cfg: Config, init: Store, e: nat, s: nat, mb: nat, r: IORef)
    requires WellWired(cfg, init) && Emits(cfg, Fwd(e, s, mb)) && r in FwdTask(cfg, e, s, mb).inputs
    ensures Supplied(cfg, init, Fwd(e, s, mb), r.uri)
  {
    StaticRefsAreStatic(cfg, s, |cfg.statics|);
    if r.uri.FwdOut? {
      assert s > 0 && r.uri == FwdOut(e, s - 1, mb, r.uri.name) && r.uri.name in cfg.stages[s].fwdIn;
      FwdConnects(cfg, e, s - 1, mb, r.uri.name);
      assert Writes(TaskOf(cfg, Fwd(e, s - 1, mb)), r.uri);
    }
  }

  /** The inputs of a backward job, one by one. */
  lemma BwdInput(cfg: Config, e: nat, s: nat, mb: nat, r: IORef)
    requires s < |cfg.stages| && r in BwdTask(cfg, e, s, mb).inputs
    ensures || r in StaticRefs(cfg, s, |cfg.statics|) || r in TargetRefs(cfg, s) || r.uri == Weights(e, s)
            || (s > 0 && r.uri == FwdOut(e, s - 1, mb, "x"))
            || (s + 1 < |cfg.stages| && r.uri == BwdOut(e, s + 1, mb, "dL_dx_in"))
  {
  }

  lemma SuppliedBy(cfg: Config, init: Store, id: JobId, p: JobId, t: Task, u: Uri)
    requires id.stage < |cfg.stages| && Emits(cfg, p) && p.epoch == id.epoch && KeyLess(KeyOf(p), KeyOf(id))
    requires t == TaskOf(cfg, p) && Writes(t, u)
    ensures Supplied(cfg, init, id, u)
  {
  }

  lemma BwdFromForward(cfg: Config, init: Store, e: nat, s: nat, mb: nat)
    requires 0 < s < |cfg.stages| && mb < cfg.microbatches && "x" in cfg.stages[s - 1].fwdOut
    ensures Supplied(cfg, init, Bwd(e, s, mb), FwdOut(e, s - 1, mb, "x"))
  {
    FwdConnects(cfg, e, s - 1, mb, "x");
    SuppliedBy(cfg, init, Bwd(e, s, mb), Fwd(e, s - 1, mb), FwdTask(cfg, e, s - 1, mb), FwdOut(e, s - 1, mb, "x"));
  }

  lemma BwdFromBackward(cfg: Config, init: Store, e: nat, s: nat, mb: nat)
    requires s + 1 < |cfg.stages| && Emits(cfg, Bwd(e, s + 1, mb)) && cfg.stages[s + 1].emitsDx
    ensures Supplied(cfg, init, Bwd(e, s, mb), BwdOut(e, s + 1, mb, "dL_dx_in"))
  {
    BwdConnects(cfg, e, s + 1, mb);
    SuppliedBy(cfg, init, Bwd(e, s, mb), Bwd(e, s + 1, mb), BwdTask(cfg, e, s + 1, mb),
               BwdOut(e, s + 1, mb, "dL_dx_in"));
  }

  lemma BwdSupplied(cfg: Config, init: Store, e: nat, s: nat, mb: nat, r: IORef)
    requires WellWired(cfg, init) && Emits(cfg, Bwd(e, s, mb)) && r in BwdTask(cfg, e, s, mb).inputs
    ensures Supplied(cfg, init, Bwd(e, s, mb), r.uri)
  {
    StaticRefsAreStatic(cfg, s, |cfg.statics|);
    BwdInput(cfg, e, s, mb, r);
    if r.uri.FwdOut? {
      BwdFromForward(cfg, init, e, s, mb);
    } else if r.uri.BwdOut? {
      BwdFromBackward(cfg, init, e, s, mb);
    }
  }

  lemma OuterSupplied(cfg: Config, init: Store, e: nat, s: nat, r: IORef)
    requires WellWired(cfg, init) && Emits(cfg, Outer(e, s)) && r in OuterTask(cfg, e, s).inputs
    ensures Supplied(cfg, init, Outer(e, s), r.uri)
  {
    if r.uri.BwdOut? {
      BwdConnects(cfg, e, s, r.uri.mb);
      assert Writes(TaskOf(cfg, Bwd(e, s, r.uri.mb)), r.uri);
    }
  }

  lemma InputSupplied(cfg: Config, init: Store, id: JobId, r: IORef)
    requires WellWired(cfg, init) && Emits(cfg, id) && r in TaskOf(cfg, id).inputs
    ensures Supplied(cfg, init, id, r.uri)
  {
    match id
    case Fwd(e, s, mb) => FwdSupplied(cfg, init, e, s, mb, r);
    case Bwd(e, s, mb) => BwdSupplied(cfg, init, e, s, mb, r);
    case Outer(e, s) => OuterSupplied(cfg, init, e, s, r);
  }

  /** A job that precedes position `i` in emission order is at a position before `i`. */
  lemma EarlierIsBefore(cfg: Config, e: nat, i: nat, p: JobId) returns (j: nat)
    requires i < |EpochTasks(cfg, e)| && Emits(cfg, p) && p.epoch == e
    requires KeyLess(KeyOf(p), KeyOf(EpochTasks(cfg, e)[i].id))
    ensures j < i && EpochTasks(cfg, e)[j] == TaskOf(cfg, p)
  {
    var ts := EpochTasks(cfg, e);
    EpochMembers(cfg, e, TaskOf(cfg, p));
    j :| 0 <= j < |ts| && ts[j] == TaskOf(cfg, p);
    EpochAscends(cfg, e);
    assert j > i ==> KeyLess(KeyOf(ts[i].id), KeyOf(ts[j].id));
  }

  /** The first job in emission order that lacks an output has all its inputs. */
  lemma FirstUnfinishedIsReady(cfg: Config, init: Store, bucket: Store, e: nat, i: nat)
    requires WellWired(cfg, init)
    requires (forall u :: u in init ==> u in bucket) && (cfg.training ==> WeightsReady(cfg, bucket, e))
    requires i < |EpochTasks(cfg, e)| && forall j :: 0 <= j < i ==> OutputsPresent(EpochTasks(cfg, e)[j], bucket)
    ensures InputsPresent(EpochTasks(cfg, e)[i], bucket)
  {
    var ts := EpochTasks(cfg, e);
    var id := ts[i].id;
    EpochMembers(cfg, e, ts[i]);
    forall r | r in ts[i].inputs ensures r.uri in bucket {
      InputSupplied(cfg, init, id, r);
      if r.uri !in init && !(r.uri == Weights(id.epoch, id.stage) && cfg.training) {
        var p :| Emits(cfg, p) && p.epoch == id.epoch && KeyLess(KeyOf(p), KeyOf(id)) && Writes(TaskOf(cfg, p), r.uri);
        var j := EarlierIsBefore(cfg, e, i, p);
        assert OutputsPresent(ts[j], bucket);
      }
    }
  }

  lemma {:induction false} FirstUnfinished(ts: seq<Task>, bucket: Store, n: nat) returns (i: nat)
    requires n <= |ts| && exists k :: 0 <= k < n && !OutputsPresent(ts[k], bucket)
    ensures i < n && !OutputsPresent(ts[i], bucket) && forall j :: 0 <= j < i ==> OutputsPresent(ts[j], bucket)
  {
    if k :| 0 <= k < n - 1 && !OutputsPresent(ts[k], bucket) {
      i := FirstUnfinished(ts, bucket, n - 1);
    } else {
      i := n - 1;
    }
  }

  /** With all outputs of the epoch in the bucket, the epoch check passes. */
  lemma AllOutputsMeanDone(cfg: Config, init: Store, bucket: Store, e: nat)
    requires WellWired(cfg, init) && AllSupported(cfg, init, bucket)
    requires forall t :: t in EpochTasks(cfg, e) ==> OutputsPresent(t, bucket)
    ensures EpochDone(cfg, bucket, e)
  {
    forall mb: nat, tail: nat | mb < cfg.microbatches && tail + 1 == |cfg.stages|
      ensures DoneMark(e, tail, mb) in bucket
    {
      EpochMembers(cfg, e, FwdTask(cfg, e, tail, mb));
      TailMarks(cfg, e, tail, mb);
    }
    CountMeansAll(cfg, init, bucket, e);
    if cfg.training {
      forall k: nat | k < |cfg.stages| && cfg.stages[k].hasOuter ensures Weights(e + 1, k) in bucket {
        EpochMembers(cfg, e, OuterTask(cfg, e, k));
        OuterConnects(cfg, e, k, 0);
      }
    }
  }

  /**
   No deadlock: in every reachable state whose current epoch is emitted but not done, some job
   of the epoch has all its inputs and lacks an output.
   */
  lemma NoDeadlock(w: World, init: Store, states: seq<State>, labels: seq<Label>, i: nat) returns (id: JobId)
    requires ValidRun(w, init, states, labels) && i < |states| && WellWired(w.cfg, init)
    requires states[i].orch.cursor in states[i].orch.emitted
    requires !EpochDone(w.cfg, states[i].bucket, states[i].orch.cursor)
    ensures id in states[i].orch.manifests && id.epoch == states[i].orch.cursor
    ensures InputsPresent(states[i].orch.manifests[id].task, states[i].bucket)
    ensures !OutputsPresent(states[i].orch.manifests[id].task, states[i].bucket)
  {
    var s := states[i];
    RunCloses(w, init, states, labels, i);
    var ts := EpochTasks(w.cfg, s.orch.cursor);
    if forall t :: t in ts ==> OutputsPresent(t, s.bucket) {
      AllOutputsMeanDone(w.cfg, init, s.bucket, s.orch.cursor);
    }
    var k := FirstUnfinished(ts, s.bucket, |ts|);
    FirstUnfinishedIsReady(w.cfg, init, s.bucket, s.orch.cursor, k);
    id := ts[k].id;
    EpochMembers(w.cfg, s.orch.cursor, ts[k]);
  }
}
