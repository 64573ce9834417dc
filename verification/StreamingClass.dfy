/**
 The streaming orchestrator as it runs: an object whose ticks rewrite its
 manifests, retry table, evicted set and cursor in place. Every method is proved
 to compute the corresponding function of StreamingOrch.
 */
module StreamingClass {
  import opened Common
  import opened Pipeline
  import opened Dataflow
  import opened Sorting
  import opened StreamingOrch

  lemma JobsConcat(cfg: Config, k: Knobs, table: seq<seq<WorkerId>>, hosts: map<WorkerId, nat>, now: int,
                   a: seq<Task>, b: seq<Task>)
    requires Coverage(table) && StagesWithin(a, |table|) && StagesWithin(b, |table|)
    ensures StagesWithin(a + b, |table|)
    ensures Jobs(cfg, k, table, hosts, now, a + b) ==
            Jobs(cfg, k, table, hosts, now, a) + Jobs(cfg, k, table, hosts, now, b)
  {
  }

  /** A pass over the rest of the jobs, one job at a time. */
  lemma ScanUnrolls(k: Knobs, sc: Scan, bucket: Store, table: seq<seq<WorkerId>>, now: int, ids: seq<JobId>, i: nat)
    requires i < |ids|
    ensures RetryScan(k, sc, bucket, table, now, ids[i..]) ==
            var next := RetryOne(k, sc, bucket, table, now, ids[i]);
            if next.count > sc.count && next.count >= k.maxPerTick then next
            else RetryScan(k, next, bucket, table, now, ids[i + 1..])
  {
    assert ids[i..][0] == ids[i] && ids[i..][1..] == ids[i + 1..];
  }

  class StreamingOrchestrator {
    const cfg: Config
    const knobs: Knobs
    var manifests: map<JobId, Manifest>
    var emitted: set<nat>
    var cursor: nat
    var completed: seq<nat>
    var retried: map<JobId, RetryInfo>
    var evicted: set<WorkerId>
    var startedAt: map<nat, int>
    var hostnames: map<WorkerId, nat>

    ghost function View(): Orch
      reads this
    {
      Orch(manifests, emitted, cursor, completed, retried, evicted, startedAt)
    }

    constructor (cfg: Config, knobs: Knobs)
      ensures this.cfg == cfg && this.knobs == knobs
      ensures View() == Orch(map[], {}, 0, [], map[], {}, map[])
    {
      this.cfg := cfg;
      this.knobs := knobs;
      manifests, emitted, cursor, completed := map[], {}, 0, [];
      retried, evicted, startedAt, hostnames := map[], {}, map[], map[];
    }

    method ListWorkersByStage(infos: seq<WorkerInfo>, now: int) returns (table: seq<seq<WorkerId>>)
      modifies this`hostnames
      ensures table == StageTable(|cfg.stages|, infos, evicted, now)
      ensures hostnames == Hosts(infos, evicted, now)
    {
      var n := |cfg.stages|;
      var byStage: seq<seq<Ranked>> := seq(n, s => []);
      var hosts: map<WorkerId, nat> := map[];
      for i := 0 to |infos|
        invariant |byStage| == n
        invariant forall s :: 0 <= s < n ==> byStage[s] == Candidates(infos[..i], evicted, now, s)
        invariant hosts == Hosts(infos[..i], evicted, now)
      {
        var wi := infos[i];
        assert infos[..i + 1][..i] == infos[..i];
        ghost var before := byStage;
        if Live(wi, evicted, now) {
          var stages := wi.stages.value;
          var r := Ranked(wi.rtt, wi.id);
          hosts := hosts[wi.id := wi.host];
          for j := 0 to |stages|
            invariant |byStage| == n
            invariant forall s :: 0 <= s < n ==> byStage[s] == before[s] + Mentions(stages[..j], s, r)
          {
            assert stages[..j + 1][..j] == stages[..j];
            var s := stages[j];
            if 0 <= s < n {
              byStage := byStage[s := byStage[s] + [r]];
            }
          }
          assert stages[..|stages|] == stages;
        }
      }
      assert infos[..|infos|] == infos;
      table := seq(n, s requires 0 <= s < n => Ids(Sort(byStage[s], RankedLeq)));
      hostnames := hosts;
    }

    /** Forward jobs of one microbatch; each stage prefers the host that the previous stage landed on. */
    method EmitForwardRow(e: nat, mb: nat, table: seq<seq<WorkerId>>, now: int) returns (jobs: seq<Manifest>)
      requires |table| == |cfg.stages| && Coverage(table)
      ensures StagesWithin(FwdRow(cfg, e, mb, |cfg.stages|), |table|)
      ensures jobs == Jobs(cfg, knobs, table, hostnames, now, FwdRow(cfg, e, mb, |cfg.stages|))
    {
      jobs := [];
      var prevHost: Option<nat> := None;
      for s := 0 to |cfg.stages|
        invariant prevHost == if s == 0 then None else HostOf(hostnames, FwdAssignee(table, hostnames, s - 1, mb))
        invariant StagesWithin(FwdRow(cfg, e, mb, s), |table|)
        invariant jobs == Jobs(cfg, knobs, table, hostnames, now, FwdRow(cfg, e, mb, s))
      {
        var assignee := Pick(table[s], prevHost, mb, hostnames);
        prevHost := HostOf(hostnames, assignee);
        JobsConcat(cfg, knobs, table, hostnames, now, FwdRow(cfg, e, mb, s), [FwdTask(cfg, e, s, mb)]);
        jobs := jobs + [Manifest(FwdTask(cfg, e, s, mb), assignee, now + knobs.deadlineSec, now)];
      }
    }

    method EmitForward(e: nat, table: seq<seq<WorkerId>>, now: int) returns (jobs: seq<Manifest>)
      requires |table| == |cfg.stages| && Coverage(table)
      ensures StagesWithin(FwdRows(cfg, e, cfg.microbatches), |table|)
      ensures jobs == Jobs(cfg, knobs, table, hostnames, now, FwdRows(cfg, e, cfg.microbatches))
    {
      jobs := [];
      for mb := 0 to cfg.microbatches
        invariant StagesWithin(FwdRows(cfg, e, mb), |table|)
        invariant jobs == Jobs(cfg, knobs, table, hostnames, now, FwdRows(cfg, e, mb))
      {
        var row := EmitForwardRow(e, mb, table, now);
        JobsConcat(cfg, knobs, table, hostnames, now, FwdRows(cfg, e, mb), FwdRow(cfg, e, mb, |cfg.stages|));
        jobs := jobs + row;
      }
    }

    /** Backward jobs of one microbatch, last stage first, each on the worker of its forward job. */
    method EmitBackwardRow(e: nat, mb: nat, table: seq<seq<WorkerId>>, now: int) returns (jobs: seq<Manifest>)
      requires |table| == |cfg.stages| && Coverage(table)
      ensures StagesWithin(BwdRow(cfg, e, mb, 0), |table|)
      ensures jobs == Jobs(cfg, knobs, table, hostnames, now, BwdRow(cfg, e, mb, 0))
    {
      jobs := [];
      for s := |cfg.stages| downto 0
        invariant StagesWithin(BwdRow(cfg, e, mb, s), |table|)
        invariant jobs == Jobs(cfg, knobs, table, hostnames, now, BwdRow(cfg, e, mb, s))
      {
        if cfg.stages[s].hasBackward {
          var assignee := BwdPick(table[s], FwdAssignee(table, hostnames, s, mb), mb, hostnames);
          JobsConcat(cfg, knobs, table, hostnames, now, BwdRow(cfg, e, mb, s + 1), [BwdTask(cfg, e, s, mb)]);
          jobs := jobs + [Manifest(BwdTask(cfg, e, s, mb), assignee, now + knobs.deadlineSec, now)];
        }
      }
    }

    method EmitBackward(e: nat, table: seq<seq<WorkerId>>, now: int) returns (jobs: seq<Manifest>)
      requires |table| == |cfg.stages| && Coverage(table)
      ensures StagesWithin(BwdRows(cfg, e, cfg.microbatches), |table|)
      ensures jobs == Jobs(cfg, knobs, table, hostnames, now, BwdRows(cfg, e, cfg.microbatches))
    {
      jobs := [];
      for mb := 0 to cfg.microbatches
        invariant StagesWithin(BwdRows(cfg, e, mb), |table|)
        invariant jobs == Jobs(cfg, knobs, table, hostnames, now, BwdRows(cfg, e, mb))
      {
        var row := EmitBackwardRow(e, mb, table, now);
        JobsConcat(cfg, knobs, table, hostnames, now, BwdRows(cfg, e, mb), BwdRow(cfg, e, mb, 0));
        jobs := jobs + row;
      }
    }

    method EmitOuter(e: nat, table: seq<seq<WorkerId>>, now: int) returns (jobs: seq<Manifest>)
      requires |table| == |cfg.stages| && Coverage(table)
      ensures StagesWithin(OuterRow(cfg, e, |cfg.stages|), |table|)
      ensures jobs == Jobs(cfg, knobs, table, hostnames, now, OuterRow(cfg, e, |cfg.stages|))
    {
      jobs := [];
      for s := 0 to |cfg.stages|
        invariant StagesWithin(OuterRow(cfg, e, s), |table|)
        invariant jobs == Jobs(cfg, knobs, table, hostnames, now, OuterRow(cfg, e, s))
      {
        if cfg.stages[s].hasOuter {
          JobsConcat(cfg, knobs, table, hostnames, now, OuterRow(cfg, e, s), [OuterTask(cfg, e, s)]);
          jobs := jobs + [Manifest(OuterTask(cfg, e, s), table[s][0], now + knobs.deadlineSec, now)];
        }
      }
    }

    method BuildEpochJobs(e: nat, table: seq<seq<WorkerId>>, now: int) returns (jobs: seq<Manifest>)
      requires |table| == |cfg.stages| && Coverage(table)
      ensures StagesWithin(EpochTasks(cfg, e), |table|)
      ensures jobs == Jobs(cfg, knobs, table, hostnames, now, EpochTasks(cfg, e))
    {
      jobs := EmitForward(e, table, now);
      ghost var fwd := FwdRows(cfg, e, cfg.microbatches);
      assert fwd + [] == fwd;
      if cfg.training {
        var bwd := EmitBackward(e, table, now);
        var outer := EmitOuter(e, table, now);
        JobsConcat(cfg, knobs, table, hostnames, now, BwdRows(cfg, e, cfg.microbatches),
                   OuterRow(cfg, e, |cfg.stages|));
        JobsConcat(cfg, knobs, table, hostnames, now, fwd,
                   BwdRows(cfg, e, cfg.microbatches) + OuterRow(cfg, e, |cfg.stages|));
        jobs := jobs + (bwd + outer);
      }
    }

    /** Build the epoch's jobs, write the manifests one by one, then the index. */
    method EmitEpochJobs(table: seq<seq<WorkerId>>, now: int)
      requires |table| == |cfg.stages| && Coverage(table) && cursor !in emitted
      modifies this`manifests, this`emitted, this`startedAt
      ensures View() == Emit(cfg, knobs, old(View()), table, hostnames, now)
    {
      var jobs := BuildEpochJobs(cursor, table, now);
      for i := 0 to |jobs|
        invariant manifests == PutManifests(old(manifests), jobs[..i])
        invariant emitted == old(emitted) && startedAt == old(startedAt)
      {
        assert jobs[..i + 1][..i] == jobs[..i];
        manifests := manifests[jobs[i].task.id := jobs[i]];
      }
      assert jobs[..|jobs|] == jobs;
      emitted := emitted + {cursor};
      startedAt := startedAt[cursor := now];
    }

    method EvictWorker(w: WorkerId)
      modifies this`evicted
      ensures evicted == old(evicted) + {w}
    {
      if w in evicted {
        return;
      }
      evicted := evicted + {w};
    }

    method RetryJob(bucket: Store, table: seq<seq<WorkerId>>, now: int, id: JobId, count: nat) returns (count': nat)
      modifies this`manifests, this`retried, this`evicted
      ensures Scan(manifests, retried, evicted, count') ==
              RetryOne(knobs, old(Scan(manifests, retried, evicted, count)), bucket, table, now, id)
    {
      count' := count;
      if !Stale(knobs, Scan(manifests, retried, evicted, count), bucket, table, id) {
        return;
      }
      var m, attempts := manifests[id], Attempts(retried, id);
      if attempts + 1 >= knobs.maxRetries {
        EvictWorker(m.assignee);
      }
      var tried := Tried(retried, id);
      var pool := Replacements(table, m.task.id.stage, m.assignee, tried);
      if |pool| == 0 {
        return;
      }
      count' := Reassign(now, id, pool[0], count);
    }

    method Reassign(now: int, id: JobId, w: WorkerId, count: nat) returns (count': nat)
      requires id in manifests
      modifies this`manifests, this`retried
      ensures Scan(manifests, retried, evicted, count') ==
              HandOver(knobs, old(Scan(manifests, retried, evicted, count)), now, id, w)
    {
      var m, tried := manifests[id], Tried(retried, id);
      retried := retried[id := RetryInfo(Attempts(retried, id) + 1, tried + {w, m.assignee})];
      manifests := manifests[id := Manifest(m.task, w, now + knobs.deadlineSec, now)];
      count' := count + 1;
    }

    method MaybeRetryStaleJobs(bucket: Store, table: seq<seq<WorkerId>>, now: int)
      modifies this`manifests, this`retried, this`evicted
      ensures View() == Retry(cfg, knobs, old(View()), bucket, table, now)
    {
      if !RetryDue(knobs, Orch(manifests, emitted, cursor, completed, retried, evicted, startedAt), now) {
        return;
      }
      RetryJobs(bucket, table, now, TaskIds(EpochTasks(cfg, cursor)));
    }

    /** The jobs are looked at in order until enough of them have changed. */
    method RetryJobs(bucket: Store, table: seq<seq<WorkerId>>, now: int, ids: seq<JobId>)
      modifies this`manifests, this`retried, this`evicted
      ensures var sc := RetryScan(knobs, old(Scan(manifests, retried, evicted, 0)), bucket, table, now, ids);
              manifests == sc.manifests && retried == sc.retried && evicted == sc.evicted
    {
      var count: nat := 0;
      var i := 0;
      ghost var target := RetryScan(knobs, Scan(manifests, retried, evicted, 0), bucket, table, now, ids);
      assert ids[0..] == ids;
      while i < |ids|
        invariant 0 <= i <= |ids|
        invariant RetryScan(knobs, Scan(manifests, retried, evicted, count), bucket, table, now, ids[i..]) == target
      {
        ScanUnrolls(knobs, Scan(manifests, retried, evicted, count), bucket, table, now, ids, i);
        var count' := RetryJob(bucket, table, now, ids[i], count);
        if count' > count && count' >= knobs.maxPerTick {
          return;
        }
        count := count';
        i := i + 1;
      }
    }

    method Tick(bucket: Store, infos: seq<WorkerInfo>, now: int, graceOver: bool)
      requires |cfg.stages| > 0
      modifies this
      ensures View() == StreamingOrch.Tick(cfg, knobs, old(View()), bucket, infos, now, graceOver)
    {
      if cursor >= cfg.maxEpochs {
        return;
      }
      var table := ListWorkersByStage(infos, now);
      if (cursor == 0 && !graceOver) || !Coverage(table) {
        return;
      }
      if cursor !in emitted {
        EmitEpochJobs(table, now);
      }
      MaybeRetryStaleJobs(bucket, table, now);
      if EpochDone(cfg, bucket, cursor) {
        completed := completed + [cursor];
        cursor := cursor + 1;
      }
    }

    method ApplyResume(bucket: Store, e: nat) returns (ok: bool)
      modifies this
      ensures ok == Resume(cfg, old(View()), bucket, e).Some?
      ensures ok ==> View() == Resume(cfg, old(View()), bucket, e).value
      ensures !ok ==> View() == old(View())
    {
      ok := e == 0 || !cfg.training || WeightsReady(cfg, bucket, e);
      if ok {
        startedAt := map[];
        if e > 0 {
          cursor, completed := e, Range(e);
        }
      }
    }
  }
}
