/**
 Reassignments over runs of the streaming system: how often a job can be handed to
 another worker, and that a restart of the orchestrator ends reassignment for the epoch.
 */
module StreamingBounds {
  import opened Common
  import opened Pipeline
  import opened Dataflow
  import opened StreamingOrch
  import opened WorkerCache
  import opened StreamingRuns
  import opened StreamingTheorems
  import opened StreamingProgress

  // ------------------------------------------------------------------------
  // Reassignments
  // ------------------------------------------------------------------------

  ghost predicate Rewritten(o: Orch, o': Orch, id: JobId)
  {
    id in o.manifests && id in o'.manifests && o'.manifests[id] != o.manifests[id]
  }

  /**
   A rewrite keeps the work as it was, names a worker other than the old one, and that worker had a fresh
   heartbeat, served the stage and was not evicted when the tick began. It costs one attempt,
   within the limit.
   */
  ghost predicate GoodRewrite(w: World, o: Orch, o': Orch, infos: seq<WorkerInfo>, now: int, id: JobId)
    requires id in o.manifests && id in o'.manifests
  {
    && o'.manifests[id].task == o.manifests[id].task
    && o'.manifests[id].assignee != o.manifests[id].assignee
    && (exists wi :: wi in infos && wi.id == o'.manifests[id].assignee && Eligible(wi, o.evicted, now, id.stage))
    && Attempts(o'.retried, id) == Attempts(o.retried, id) + 1 <= w.knobs.maxRetries
  }

  lemma ReassignedIsGood(w: World, o: Orch, o': Orch, infos: seq<WorkerInfo>, now: int, id: JobId)
    requires OrchOk(w, o) && id in o.manifests
    requires Reassigned(w.knobs, StageTable(|w.cfg.stages|, infos, o.evicted, now),
                        Scan(o.manifests, o.retried, o.evicted, 0), Scan(o'.manifests, o'.retried, o'.evicted, 0), id)
    ensures GoodRewrite(w, o, o', infos, now, id)
  {
    assert o.manifests[id].task == TaskOf(w.cfg, id);
    StageTableSpec(|w.cfg.stages|, infos, o.evicted, now, id.stage, o'.manifests[id].assignee);
  }

  lemma RetryRewrites(w: World, o: Orch, bucket: Store, infos: seq<WorkerInfo>, now: int) returns (changed: set<JobId>)
    requires OrchOk(w, o)
    ensures RewritesOnly(w, o,
                         Retry(w.cfg, w.knobs, o, bucket, StageTable(|w.cfg.stages|, infos, o.evicted, now), now),
                         infos, now, changed)
    ensures |changed| <= if w.knobs.maxPerTick >= 1 then w.knobs.maxPerTick else 1
  {
    var table := StageTable(|w.cfg.stages|, infos, o.evicted, now);
    var o' := Retry(w.cfg, w.knobs, o, bucket, table, now);
    changed := RetryFacts(w.cfg, w.knobs, o, bucket, table, now);
    var before, after := Scan(o.manifests, o.retried, o.evicted, 0), Scan(o'.manifests, o'.retried, o'.evicted, 0);
    forall id | id in o.manifests
      ensures id in o'.manifests
      ensures if Rewritten(o, o', id) then id in changed && GoodRewrite(w, o, o', infos, now, id)
              else Attempts(o'.retried, id) == Attempts(o.retried, id)
    {
      if id in changed {
        assert Reassigned(w.knobs, table, before, after, id);
        ReassignedIsGood(w, o, o', infos, now, id);
      } else {
        assert Untouched(before, after, id);
      }
    }
  }

  /** Emission leaves the manifests that exist, the retry table and the evicted set alone. */
  lemma EmitLeaves(w: World, o: Orch, table: seq<seq<WorkerId>>, hosts: map<WorkerId, nat>, now: int)
    requires |table| == |w.cfg.stages| && Coverage(table) && OrchOk(w, o)
    ensures var o1 := Emit(w.cfg, w.knobs, o, table, hosts, now);
            && OrchOk(w, o1) && o1.evicted == o.evicted && o1.retried == o.retried
            && forall id :: id in o.manifests ==> id in o1.manifests && o1.manifests[id] == o.manifests[id]
  {
    EmitKeeps(w, o, table, hosts, now);
  }

  /** Every rewrite of the step from `o` to `o'` is a good one, is in `changed`, and nothing else costs an attempt. */
  ghost predicate RewritesOnly(w: World, o: Orch, o': Orch, infos: seq<WorkerInfo>, now: int, changed: set<JobId>)
  {
    && (forall id :: id in o.manifests ==> id in o'.manifests)
    && (forall id :: Rewritten(o, o', id) ==> id in changed && GoodRewrite(w, o, o', infos, now, id))
    && (forall id :: id in o.manifests && !Rewritten(o, o', id) ==> Attempts(o'.retried, id) == Attempts(o.retried, id))
  }

  lemma RewritesAfterEmit(w: World, o: Orch, o1: Orch, o2: Orch, infos: seq<WorkerInfo>, now: int, changed: set<JobId>)
    requires o1.evicted == o.evicted && o1.retried == o.retried
    requires forall id :: id in o.manifests ==> id in o1.manifests && o1.manifests[id] == o.manifests[id]
    requires RewritesOnly(w, o1, o2, infos, now, changed)
    ensures RewritesOnly(w, o, o2, infos, now, changed)
  {
    forall id | Rewritten(o, o2, id) ensures id in changed && GoodRewrite(w, o, o2, infos, now, id) {
      assert Rewritten(o1, o2, id) && GoodRewrite(w, o1, o2, infos, now, id);
    }
  }

  /** One tick rewrites at most `maxPerTick` manifests (one, when the cap is below one), each of them well. */
  lemma TickRewrites(w: World, o: Orch, bucket: Store, infos: seq<WorkerInfo>, now: int, graceOver: bool)
    returns (changed: set<JobId>)
    requires |w.cfg.stages| > 0 && OrchOk(w, o)
    ensures RewritesOnly(w, o, Tick(w.cfg, w.knobs, o, bucket, infos, now, graceOver), infos, now, changed)
    ensures |changed| <= if w.knobs.maxPerTick >= 1 then w.knobs.maxPerTick else 1
  {
    changed := {};
    var table := StageTable(|w.cfg.stages|, infos, o.evicted, now);
    if !(o.cursor >= w.cfg.maxEpochs || (o.cursor == 0 && !graceOver) || !Coverage(table)) {
      var o1 := Emit(w.cfg, w.knobs, o, table, Hosts(infos, o.evicted, now), now);
      EmitLeaves(w, o, table, Hosts(infos, o.evicted, now), now);
      changed := RetryRewrites(w, o1, bucket, infos, now);
      var o2 := Retry(w.cfg, w.knobs, o1, bucket, table, now);
      RewritesAfterEmit(w, o, o1, o2, infos, now, changed);
      AdvanceRewritesNothing(w, o, o2, bucket, infos, now, changed);
    }
  }

  lemma AdvanceRewritesNothing(w: World, o: Orch, o2: Orch, bucket: Store, infos: seq<WorkerInfo>, now: int,
                               changed: set<JobId>)
    requires |w.cfg.stages| > 0 && RewritesOnly(w, o, o2, infos, now, changed)
    ensures RewritesOnly(w, o, Advance(w.cfg, o2, bucket), infos, now, changed)
  {
    var o3 := Advance(w.cfg, o2, bucket);
    assert o3.manifests == o2.manifests && o3.retried == o2.retried;
    forall id | Rewritten(o, o3, id) ensures id in changed && GoodRewrite(w, o, o3, infos, now, id) {
      assert Rewritten(o, o2, id);
    }
  }

  /** How often the manifest of `id` was rewritten in the first `i` steps. */
  ghost function Rewrites(states: seq<State>, id: JobId, i: nat): nat
    requires i < |states|
  {
    if i == 0 then 0
    else Rewrites(states, id, i - 1) + (if Rewritten(states[i - 1].orch, states[i].orch, id) then 1 else 0)
  }

  lemma StepRewrites(w: World, s: State, l: Label, s': State, id: JobId)
    requires |w.cfg.stages| > 0 && Next(w, s, l, s') && OrchOk(w, s.orch)
    ensures Rewritten(s.orch, s'.orch, id) ==> Attempts(s'.orch.retried, id) == Attempts(s.orch.retried, id) + 1
    ensures id in s.orch.manifests ==>
            id in s'.orch.manifests && Attempts(s'.orch.retried, id) >= Attempts(s.orch.retried, id)
  {
    if l.OrchTick? {
      var changed := TickRewrites(w, s.orch, s.bucket, l.infos, l.now, l.graceOver);
    }
  }

  lemma RewritesAt(w: World, init: Store, states: seq<State>, labels: seq<Label>, id: JobId, i: nat)
    requires ValidRun(w, init, states, labels) && i < |labels|
    ensures var o, o' := states[i].orch, states[i + 1].orch;
            && (Rewritten(o, o', id) ==> Attempts(o'.retried, id) == Attempts(o.retried, id) + 1)
            && (id in o.manifests ==> id in o'.manifests && Attempts(o'.retried, id) >= Attempts(o.retried, id))
            && (id !in o.manifests ==> Attempts(o.retried, id) == 0)
  {
    RunOrch(w, init, states, labels, i, i);
    assert StepAt(w, states, labels, i);
    StepRewrites(w, states[i], labels[i], states[i + 1], id);
  }

  lemma {:induction false} RewritesWithinAttempts(w: World, init: Store, states: seq<State>, labels: seq<Label>,
                                                  id: JobId, i: nat)
    requires ValidRun(w, init, states, labels) && i < |states|
    ensures Rewrites(states, id, i) <= Attempts(states[i].orch.retried, id)
    ensures Rewrites(states, id, i) > 0 ==> id in states[i].orch.manifests
  {
    if i > 0 {
      RewritesWithinAttempts(w, init, states, labels, id, i - 1);
      RewritesAt(w, init, states, labels, id, i - 1);
    }
  }

  /** Over a whole run, restarts included, the manifest of a job is rewritten at most `maxRetries` times. */
  lemma RetriesBounded(w: World, init: Store, states: seq<State>, labels: seq<Label>, id: JobId, i: nat)
    requires ValidRun(w, init, states, labels) && i < |states|
    ensures Rewrites(states, id, i) <= if w.knobs.maxRetries > 0 then w.knobs.maxRetries else 0
  {
    RewritesWithinAttempts(w, init, states, labels, id, i);
    RunOrch(w, init, states, labels, i, i);
  }

  // ------------------------------------------------------------------------
  // Retries after a restart
  // ------------------------------------------------------------------------

  /** The current epoch was emitted, but by a process whose clock for it is gone. */
  ghost predicate ClockLost(w: World, o: Orch)
  {
    w.knobs.retryAfter > 0 && o.cursor in o.emitted && o.cursor !in o.startedAt
  }

  lemma StepWithoutClock(w: World, s: State, l: Label, s': State)
    requires |w.cfg.stages| > 0 && Next(w, s, l, s') && ClockLost(w, s.orch) && s'.orch.cursor == s.orch.cursor
    ensures ClockLost(w, s'.orch) && s'.orch.manifests == s.orch.manifests
  {
  }

  /** After a restart no job of the epoch in flight is ever reassigned: its age reads as zero until the cursor moves. */
  lemma {:induction false} NoRetryAfterRestart(w: World, init: Store, states: seq<State>, labels: seq<Label>, i: nat,
                                               j: nat)
    requires ValidRun(w, init, states, labels) && i <= j < |states|
    requires ClockLost(w, states[i].orch)
    requires forall m :: i <= m <= j ==> states[m].orch.cursor == states[i].orch.cursor
    ensures states[j].orch.manifests == states[i].orch.manifests && ClockLost(w, states[j].orch)
    decreases j
  {
    if i < j {
      NoRetryAfterRestart(w, init, states, labels, i, j - 1);
      assert StepAt(w, states, labels, j - 1);
      StepWithoutClock(w, states[j - 1], labels[j - 1], states[j]);
    }
  }
}
