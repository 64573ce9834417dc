/**
 The streaming orchestrator: worker table, emission of an epoch, retry of stale
 jobs with eviction, and advance of the cursor. Each operation is a function of
 the orchestrator's persisted state.
 */
module StreamingOrch {
  import opened Common
  import opened Pipeline
  import opened Dataflow
  import opened Sorting

  datatype WorkerInfo = WorkerInfo(id: WorkerId, lastSeen: int, stages: Option<seq<int>>, rtt: real, host: nat)

  datatype Manifest = Manifest(task: Task, assignee: WorkerId, deadline: int, created: int)

  datatype RetryInfo = RetryInfo(attempts: nat, assignees: set<WorkerId>)

  datatype Knobs = Knobs(retryAfter: int, maxRetries: int, maxPerTick: int, deadlineSec: int)

  const WORKER_STALE_SEC := 30

  datatype Orch = Orch(
    manifests: map<JobId, Manifest>,
    emitted: set<nat>,
    cursor: nat,
    completed: seq<nat>,
    retried: map<JobId, RetryInfo>,
    evicted: set<WorkerId>,
    startedAt: map<nat, int>)

  // ------------------------------------------------------------------------
  // Worker table
  // ------------------------------------------------------------------------

  datatype Ranked = Ranked(rtt: real, id: WorkerId)

  predicate RankedLeq(a: Ranked, b: Ranked) { a.rtt < b.rtt || (a.rtt == b.rtt && a.id <= b.id) }

  predicate Live(wi: WorkerInfo, evicted: set<WorkerId>, now: int)
  {
    wi.lastSeen >= now - WORKER_STALE_SEC && wi.id !in evicted && wi.stages.Some?
  }

  /** One table entry per mention of the stage in the worker's capability list. */
  function Mentions(stages: seq<int>, s: nat, r: Ranked): seq<Ranked>
  {
    if |stages| == 0 then []
    else Mentions(stages[..|stages| - 1], s, r) + (if stages[|stages| - 1] == s then [r] else [])
  }

  function Candidates(infos: seq<WorkerInfo>, evicted: set<WorkerId>, now: int, s: nat): seq<Ranked>
  {
    if |infos| == 0 then []
    else
      var wi := infos[|infos| - 1];
      Candidates(infos[..|infos| - 1], evicted, now, s) +
      (if Live(wi, evicted, now) then Mentions(wi.stages.value, s, Ranked(wi.rtt, wi.id)) else [])
  }

  function Ids(xs: seq<Ranked>): seq<WorkerId> { seq(|xs|, i requires 0 <= i < |xs| => xs[i].id) }

  /** Live workers of each stage, lowest round-trip time first. */
  function StageTable(n: nat, infos: seq<WorkerInfo>, evicted: set<WorkerId>, now: int): (table: seq<seq<WorkerId>>)
    ensures |table| == n
  {
    seq(n, (s: nat) => Ids(Sort(Candidates(infos, evicted, now, s), RankedLeq)))
  }

  function Hosts(infos: seq<WorkerInfo>, evicted: set<WorkerId>, now: int): map<WorkerId, nat>
  {
    if |infos| == 0 then map[]
    else
      var wi := infos[|infos| - 1];
      var before := Hosts(infos[..|infos| - 1], evicted, now);
      if Live(wi, evicted, now) then before[wi.id := wi.host] else before
  }

  predicate Coverage(table: seq<seq<WorkerId>>) { forall s :: 0 <= s < |table| ==> |table[s]| > 0 }

  lemma {:induction false} MentionsMember(stages: seq<int>, s: nat, r: Ranked)
    ensures forall x :: x in Mentions(stages, s, r) <==> x == r && s in stages
  {
    if |stages| > 0 {
      MentionsMember(stages[..|stages| - 1], s, r);
      assert forall y :: y in stages <==> y in stages[..|stages| - 1] || y == stages[|stages| - 1];
    }
  }

  ghost predicate Eligible(wi: WorkerInfo, evicted: set<WorkerId>, now: int, s: nat)
  {
    Live(wi, evicted, now) && s in wi.stages.value
  }

  lemma {:induction false} CandidatesMember(infos: seq<WorkerInfo>, evicted: set<WorkerId>, now: int, s: nat, r: Ranked)
    ensures r in Candidates(infos, evicted, now, s) <==>
            exists wi :: wi in infos && Eligible(wi, evicted, now, s) && r == Ranked(wi.rtt, wi.id)
  {
    if |infos| > 0 {
      var wi := infos[|infos| - 1];
      CandidatesMember(infos[..|infos| - 1], evicted, now, s, r);
      if Live(wi, evicted, now) {
        MentionsMember(wi.stages.value, s, Ranked(wi.rtt, wi.id));
      }
      assert forall x :: x in infos <==> x in infos[..|infos| - 1] || x == wi;
    }
  }

  /**
   A worker is in a stage's list exactly when some heartbeat of it is fresh, names the
   stage and the worker is not evicted; and the list is in order of round-trip time.
   */
  lemma StageTableSpec(n: nat, infos: seq<WorkerInfo>, evicted: set<WorkerId>, now: int, s: nat, w: WorkerId)
    requires s < n
    ensures w in StageTable(n, infos, evicted, now)[s] <==>
            exists wi :: wi in infos && wi.id == w && Eligible(wi, evicted, now, s)
    ensures w in StageTable(n, infos, evicted, now)[s] ==> w !in evicted
    ensures exists sorted :: Sorted(sorted, RankedLeq) && StageTable(n, infos, evicted, now)[s] == Ids(sorted) &&
              multiset(sorted) == multiset(Candidates(infos, evicted, now, s))
  {
    var cs := Candidates(infos, evicted, now, s);
    var sorted := Sort(cs, RankedLeq);
    SortSorts(cs, RankedLeq);
    if w in StageTable(n, infos, evicted, now)[s] {
      var i :| 0 <= i < |sorted| && sorted[i].id == w;
      assert sorted[i] in multiset(sorted);
      CandidatesMember(infos, evicted, now, s, sorted[i]);
    }
    if wi :| wi in infos && wi.id == w && Eligible(wi, evicted, now, s) {
      CandidatesMember(infos, evicted, now, s, Ranked(wi.rtt, wi.id));
      assert Ranked(wi.rtt, wi.id) in multiset(sorted);
      var i :| 0 <= i < |sorted| && sorted[i] == Ranked(wi.rtt, wi.id);
      assert StageTable(n, infos, evicted, now)[s][i] == w;
    }
  }

  // ------------------------------------------------------------------------
  // Emission
  // ------------------------------------------------------------------------

  function Filter(ws: seq<WorkerId>, keep: WorkerId -> bool): (r: seq<WorkerId>)
    ensures forall w :: w in r <==> w in ws && keep(w)
  {
    if |ws| == 0 then []
    else
      assert forall w :: w in ws <==> w in ws[..|ws| - 1] || w == ws[|ws| - 1];
      Filter(ws[..|ws| - 1], keep) + (if keep(ws[|ws| - 1]) then [ws[|ws| - 1]] else [])
  }

  function HostOf(hosts: map<WorkerId, nat>, w: WorkerId): Option<nat> { if w in hosts then Some(hosts[w]) else None }

  function Near(hosts: map<WorkerId, nat>, host: Option<nat>): WorkerId -> bool
  {
    (w: WorkerId) => HostOf(hosts, w) == host
  }

  /** Round robin among the pinned workers, restricted to the preferred host when it has any. */
  function Pick(pinned: seq<WorkerId>, prefer: Option<nat>, mb: nat, hosts: map<WorkerId, nat>): (w: WorkerId)
    requires |pinned| > 0
    ensures w in pinned
    ensures prefer.Some? && (exists p :: p in pinned && HostOf(hosts, p) == prefer) ==> HostOf(hosts, w) == prefer
  {
    if prefer.None? || hosts == map[] then pinned[mb % |pinned|]
    else
      var same := Filter(pinned, Near(hosts, prefer));
      if |same| > 0 then
        assert same[mb % |same|] in same;
        same[mb % |same|]
      else pinned[mb % |pinned|]
  }

  function FwdAssignee(table: seq<seq<WorkerId>>, hosts: map<WorkerId, nat>, s: nat, mb: nat): (w: WorkerId)
    requires s < |table| && Coverage(table)
    ensures w in table[s]
  {
    Pick(table[s], if s == 0 then None else HostOf(hosts, FwdAssignee(table, hosts, s - 1, mb)), mb, hosts)
  }

  /** The worker of the forward job when it is still pinned, a pick near its host otherwise. */
  function BwdPick(pinned: seq<WorkerId>, fwd: WorkerId, mb: nat, hosts: map<WorkerId, nat>): (w: WorkerId)
    requires |pinned| > 0
    ensures w in pinned && (fwd in pinned ==> w == fwd)
  {
    if fwd in pinned then fwd else Pick(pinned, HostOf(hosts, fwd), mb, hosts)
  }

  /** Within one emission the fallback is never needed: backward runs where forward ran. */
  function BwdAssignee(table: seq<seq<WorkerId>>, hosts: map<WorkerId, nat>, s: nat, mb: nat): (w: WorkerId)
    requires s < |table| && Coverage(table)
    ensures w == FwdAssignee(table, hosts, s, mb)
  {
    BwdPick(table[s], FwdAssignee(table, hosts, s, mb), mb, hosts)
  }

  function Assignee(table: seq<seq<WorkerId>>, hosts: map<WorkerId, nat>, id: JobId): (w: WorkerId)
    requires id.stage < |table| && Coverage(table)
    ensures w in table[id.stage]
  {
    match id
    case Fwd(_, s, mb) => FwdAssignee(table, hosts, s, mb)
    case Bwd(_, s, mb) => BwdAssignee(table, hosts, s, mb)
    case Outer(_, s) => table[s][0]
  }

  function JobFor(cfg: Config, k: Knobs, table: seq<seq<WorkerId>>, hosts: map<WorkerId, nat>, now: int,
                  t: Task): Manifest
    requires t.id.stage < |table| && Coverage(table)
  {
    Manifest(t, Assignee(table, hosts, t.id), now + k.deadlineSec, now)
  }

  ghost predicate StagesWithin(ts: seq<Task>, n: nat) { forall t :: t in ts ==> t.id.stage < n }

  function Jobs(cfg: Config, k: Knobs, table: seq<seq<WorkerId>>, hosts: map<WorkerId, nat>, now: int,
                ts: seq<Task>): seq<Manifest>
    requires Coverage(table) && StagesWithin(ts, |table|)
  {
    seq(|ts|, i requires 0 <= i < |ts| => JobFor(cfg, k, table, hosts, now, ts[i]))
  }

  function PutManifests(ms: map<JobId, Manifest>, js: seq<Manifest>): map<JobId, Manifest>
  {
    if |js| == 0 then ms else PutManifests(ms, js[..|js| - 1])[js[|js| - 1].task.id := js[|js| - 1]]
  }

  lemma EpochStages(cfg: Config, e: nat)
    ensures StagesWithin(EpochTasks(cfg, e), |cfg.stages|)
  {
    forall t | t in EpochTasks(cfg, e) ensures t.id.stage < |cfg.stages| {
      EpochMembers(cfg, e, t);
    }
  }

  ghost function Emit(cfg: Config, k: Knobs, o: Orch, table: seq<seq<WorkerId>>, hosts: map<WorkerId, nat>,
                      now: int): Orch
    requires |table| == |cfg.stages| && Coverage(table)
  {
    if o.cursor in o.emitted then o
    else
      EpochStages(cfg, o.cursor);
      o.(manifests := PutManifests(o.manifests, Jobs(cfg, k, table, hosts, now, EpochTasks(cfg, o.cursor))),
         emitted := o.emitted + {o.cursor},
         startedAt := o.startedAt[o.cursor := now])
  }

  lemma {:induction false} PutManifestsSpec(ms: map<JobId, Manifest>, js: seq<Manifest>, id: JobId)
    ensures id in PutManifests(ms, js) <==> id in ms || exists j :: j in js && j.task.id == id
    ensures id in PutManifests(ms, js) ==>
            (exists j :: j in js && j.task.id == id && PutManifests(ms, js)[id] == j) ||
            (id in ms && PutManifests(ms, js)[id] == ms[id] && forall j :: j in js ==> j.task.id != id)
  {
    if |js| > 0 {
      var last := js[|js| - 1];
      assert forall j :: j in js <==> j in js[..|js| - 1] || j == last;
      PutManifestsSpec(ms, js[..|js| - 1], id);
    }
  }

  /** The manifest is the one made for the job of epoch `e` that it names. */
  ghost predicate JobOfEpoch(cfg: Config, k: Knobs, table: seq<seq<WorkerId>>, hosts: map<WorkerId, nat>, now: int,
                             e: nat, j: Manifest)
    requires |table| == |cfg.stages| && Coverage(table)
  {
    Emits(cfg, j.task.id) && j.task.id.epoch == e && j == JobFor(cfg, k, table, hosts, now, TaskOf(cfg, j.task.id))
  }

  lemma JobsOfEpoch(cfg: Config, k: Knobs, table: seq<seq<WorkerId>>, hosts: map<WorkerId, nat>, now: int, e: nat,
                    j: Manifest)
    requires |table| == |cfg.stages| && Coverage(table) && StagesWithin(EpochTasks(cfg, e), |table|)
    requires j in Jobs(cfg, k, table, hosts, now, EpochTasks(cfg, e))
    ensures JobOfEpoch(cfg, k, table, hosts, now, e, j)
  {
    var ts := EpochTasks(cfg, e);
    var i :| 0 <= i < |ts| && Jobs(cfg, k, table, hosts, now, ts)[i] == j;
    EpochMembers(cfg, e, ts[i]);
  }

  /** Emission writes the epoch's jobs, each with its task and a live worker of its stage, and nothing else. */
  lemma EmitSpec(cfg: Config, k: Knobs, o: Orch, table: seq<seq<WorkerId>>, hosts: map<WorkerId, nat>, now: int,
                 id: JobId)
    requires |table| == |cfg.stages| && Coverage(table)
    requires o.cursor !in o.emitted
    ensures var o' := Emit(cfg, k, o, table, hosts, now);
            if Emits(cfg, id) && id.epoch == o.cursor then
              && id in o'.manifests
              && o'.manifests[id] == Manifest(TaskOf(cfg, id), Assignee(table, hosts, id), now + k.deadlineSec, now)
            else
              (id in o'.manifests <==> id in o.manifests) && (id in o.manifests ==> o'.manifests[id] == o.manifests[id])
  {
    var ts := EpochTasks(cfg, o.cursor);
    EpochStages(cfg, o.cursor);
    var js := Jobs(cfg, k, table, hosts, now, ts);
    PutManifestsSpec(o.manifests, js, id);
    forall j | j in js ensures JobOfEpoch(cfg, k, table, hosts, now, o.cursor, j) {
      JobsOfEpoch(cfg, k, table, hosts, now, o.cursor, j);
    }
    if Emits(cfg, id) && id.epoch == o.cursor {
      EpochMembers(cfg, o.cursor, TaskOf(cfg, id));
      var i :| 0 <= i < |ts| && ts[i] == TaskOf(cfg, id);
      assert js[i] in js;
    }
  }

  // ------------------------------------------------------------------------
  // Retry of stale jobs
  // ------------------------------------------------------------------------

  datatype Scan = Scan(manifests: map<JobId, Manifest>, retried: map<JobId, RetryInfo>, evicted: set<WorkerId>,
                       count: nat)

  function Attempts(retried: map<JobId, RetryInfo>, id: JobId): nat
  {
    if id in retried then retried[id].attempts else 0
  }

  function Tried(retried: map<JobId, RetryInfo>, id: JobId): set<WorkerId>
  {
    if id in retried then retried[id].assignees else {}
  }

  predicate InTable(table: seq<seq<WorkerId>>, w: WorkerId) { exists s :: 0 <= s < |table| && w in table[s] }

  /** The job has its inputs, lacks an output, and its assignee is gone or on its last chance. */
  predicate Stale(k: Knobs, sc: Scan, bucket: Store, table: seq<seq<WorkerId>>, id: JobId)
  {
    && Attempts(sc.retried, id) < k.maxRetries
    && id in sc.manifests
    && !OutputsPresent(sc.manifests[id].task, bucket)
    && InputsPresent(sc.manifests[id].task, bucket)
    && !(InTable(table, sc.manifests[id].assignee) && Attempts(sc.retried, id) + 1 < k.maxRetries)
  }

  function OtherThan(current: WorkerId): WorkerId -> bool { (w: WorkerId) => w != current }

  function NotAmong(tried: set<WorkerId>): WorkerId -> bool { (w: WorkerId) => w !in tried }

  function Replacements(table: seq<seq<WorkerId>>, s: nat, current: WorkerId, tried: set<WorkerId>): (ws: seq<WorkerId>)
    ensures forall w :: w in ws ==> s < |table| && w in table[s] && w != current
  {
    if s >= |table| then []
    else
      var others := Filter(table[s], OtherThan(current));
      var untried := Filter(others, NotAmong(tried));
      if |untried| > 0 then untried else others
  }

  /** A job given to another worker with a new deadline; it and the worker before it count as tried. */
  function HandOver(k: Knobs, sc: Scan, now: int, id: JobId, w: WorkerId): Scan
    requires id in sc.manifests
  {
    var m := sc.manifests[id];
    Scan(sc.manifests[id := Manifest(m.task, w, now + k.deadlineSec, now)],
         sc.retried[id := RetryInfo(Attempts(sc.retried, id) + 1, Tried(sc.retried, id) + {w, m.assignee})],
         sc.evicted, sc.count + 1)
  }

  function RetryOne(k: Knobs, sc: Scan, bucket: Store, table: seq<seq<WorkerId>>, now: int, id: JobId): Scan
  {
    if !Stale(k, sc, bucket, table, id) then sc
    else
      var m := sc.manifests[id];
      var n := Attempts(sc.retried, id);
      var tried := Tried(sc.retried, id);
      var evicted := if n + 1 >= k.maxRetries then sc.evicted + {m.assignee} else sc.evicted;
      var pool := Replacements(table, m.task.id.stage, m.assignee, tried);
      if |pool| == 0 then sc.(evicted := evicted) else HandOver(k, sc.(evicted := evicted), now, id, pool[0])
  }

  function RetryScan(k: Knobs, sc: Scan, bucket: Store, table: seq<seq<WorkerId>>, now: int, ids: seq<JobId>): Scan
    decreases |ids|
  {
    if |ids| == 0 then sc
    else
      var next := RetryOne(k, sc, bucket, table, now, ids[0]);
      if next.count > sc.count && next.count >= k.maxPerTick then next
      else RetryScan(k, next, bucket, table, now, ids[1..])
  }

  function TaskIds(ts: seq<Task>): seq<JobId> { seq(|ts|, i requires 0 <= i < |ts| => ts[i].id) }

  /** The epoch's age is counted from emission by this process; a restarted process sees age 0. */
  predicate RetryDue(k: Knobs, o: Orch, now: int)
  {
    o.cursor in o.emitted && (if o.cursor in o.startedAt then now - o.startedAt[o.cursor] else 0) >= k.retryAfter
  }

  function Retry(cfg: Config, k: Knobs, o: Orch, bucket: Store, table: seq<seq<WorkerId>>, now: int): Orch
  {
    if !RetryDue(k, o, now) then o
    else
      var sc := RetryScan(k, Scan(o.manifests, o.retried, o.evicted, 0), bucket, table, now,
        TaskIds(EpochTasks(cfg, o.cursor)));
      o.(manifests := sc.manifests, retried := sc.retried, evicted := sc.evicted)
  }

  /** What one pass may do to one manifest: nothing, or one reassignment to another worker of the stage table. */
  ghost predicate Reassigned(k: Knobs, table: seq<seq<WorkerId>>, before: Scan, after: Scan, id: JobId)
  {
    && id in before.manifests && id in after.manifests
    && after.manifests[id].task == before.manifests[id].task
    && after.manifests[id].assignee != before.manifests[id].assignee
    && before.manifests[id].task.id.stage < |table|
    && after.manifests[id].assignee in table[before.manifests[id].task.id.stage]
    && Attempts(after.retried, id) == Attempts(before.retried, id) + 1 <= k.maxRetries
  }

  ghost predicate Untouched(before: Scan, after: Scan, id: JobId)
  {
    && (id in before.manifests <==> id in after.manifests)
    && (id in before.manifests ==> after.manifests[id] == before.manifests[id])
    && Attempts(after.retried, id) == Attempts(before.retried, id)
  }

  lemma RetryOneSpec(k: Knobs, sc: Scan, bucket: Store, table: seq<seq<WorkerId>>, now: int, id: JobId)
    ensures var next := RetryOne(k, sc, bucket, table, now, id);
            && sc.evicted <= next.evicted
            && (next.count == sc.count || (next.count == sc.count + 1 && Reassigned(k, table, sc, next, id)))
            && forall j :: j != id || next.count == sc.count ==> Untouched(sc, next, j)
  {
    if Stale(k, sc, bucket, table, id) {
      var pool := Replacements(table, sc.manifests[id].task.id.stage, sc.manifests[id].assignee, Tried(sc.retried, id));
      assert |pool| > 0 ==> pool[0] in pool;
    }
  }

  /** The jobs in a set are reassigned, each once, and no other job is touched. */
  ghost predicate Changes(k: Knobs, table: seq<seq<WorkerId>>, a: Scan, b: Scan, changed: set<JobId>)
  {
    && (forall id :: id in changed ==> Reassigned(k, table, a, b, id))
    && (forall id :: id !in changed ==> Untouched(a, b, id))
  }

  /** Two consecutive parts of a pass that change different jobs. */
  lemma ScanCompose(k: Knobs, table: seq<seq<WorkerId>>, a: Scan, b: Scan, c: Scan, first: set<JobId>, rest: set<JobId>)
    requires first !! rest && Changes(k, table, a, b, first) && Changes(k, table, b, c, rest)
    ensures Changes(k, table, a, c, first + rest)
  {
    forall id | id in first + rest ensures Reassigned(k, table, a, c, id) {
      if id in first {
        assert Untouched(b, c, id);
      } else {
        assert Untouched(a, b, id);
      }
    }
    forall id | id !in first + rest ensures Untouched(a, c, id) {
      assert Untouched(a, b, id) && Untouched(b, c, id);
    }
  }

  lemma FirstChanged(k: Knobs, sc: Scan, bucket: Store, table: seq<seq<WorkerId>>, now: int, id: JobId, next: Scan)
    returns (first: set<JobId>)
    requires next == RetryOne(k, sc, bucket, table, now, id)
    ensures first <= {id} && next.count == sc.count + |first| && sc.evicted <= next.evicted
    ensures forall j :: j in first ==> Reassigned(k, table, sc, next, j)
    ensures forall j :: j !in first ==> Untouched(sc, next, j)
  {
    RetryOneSpec(k, sc, bucket, table, now, id);
    first := if next.count > sc.count then {id} else {};
  }

  lemma JoinChanged(ids: seq<JobId>, first: set<JobId>, rest: set<JobId>)
    requires ids != [] && Distinct(ids) && first <= {ids[0]} && forall id :: id in rest ==> id in ids[1..]
    ensures first !! rest && |first + rest| == |first| + |rest| && forall id :: id in first + rest ==> id in ids
  {
    assert ids[0] !in ids[1..];
  }

  /** The first look of a pass, and whether the pass goes on behind it. */
  lemma FirstLook(k: Knobs, sc: Scan, bucket: Store, table: seq<seq<WorkerId>>, now: int, ids: seq<JobId>)
    returns (next: Scan, first: set<JobId>, stops: bool)
    requires ids != []
    ensures first <= {ids[0]} && next.count == sc.count + |first| && sc.evicted <= next.evicted
    ensures Changes(k, table, sc, next, first)
    ensures RetryScan(k, sc, bucket, table, now, ids) ==
            if stops then next else RetryScan(k, next, bucket, table, now, ids[1..])
  {
    next := RetryOne(k, sc, bucket, table, now, ids[0]);
    first := FirstChanged(k, sc, bucket, table, now, ids[0], next);
    stops := next.count > sc.count && next.count >= k.maxPerTick;
  }

  /**
   The jobs a pass changes: as many as it counts, each reassigned once to another worker
   of its stage's list, all of them among the scanned ids. Evictions only accumulate.
   */
  lemma {:induction false} RetryScanSpec(k: Knobs, sc: Scan, bucket: Store, table: seq<seq<WorkerId>>, now: int,
                                         ids: seq<JobId>)
    returns (changed: set<JobId>)
    requires Distinct(ids)
    ensures forall id :: id in changed ==> id in ids
    ensures Changes(k, table, sc, RetryScan(k, sc, bucket, table, now, ids), changed)
    ensures sc.evicted <= RetryScan(k, sc, bucket, table, now, ids).evicted
    ensures RetryScan(k, sc, bucket, table, now, ids).count == sc.count + |changed|
    decreases |ids|
  {
    changed := {};
    if |ids| > 0 {
      var next, first, stops := FirstLook(k, sc, bucket, table, now, ids);
      changed := first;
      if !stops {
        var rest := RetryScanSpec(k, next, bucket, table, now, ids[1..]);
        JoinChanged(ids, first, rest);
        ScanCompose(k, table, sc, next, RetryScan(k, next, bucket, table, now, ids[1..]), first, rest);
        changed := first + rest;
      }
    }
  }

  /** At most `maxPerTick` jobs change in a pass (one, when the cap is below one). */
  lemma {:induction false} RetryScanCap(k: Knobs, sc: Scan, bucket: Store, table: seq<seq<WorkerId>>, now: int,
                                        ids: seq<JobId>)
    requires sc.count == 0 || sc.count < k.maxPerTick
    ensures RetryScan(k, sc, bucket, table, now, ids).count <= (if k.maxPerTick >= 1 then k.maxPerTick else 1)
    decreases |ids|
  {
    if |ids| > 0 {
      var next := RetryOne(k, sc, bucket, table, now, ids[0]);
      RetryOneSpec(k, sc, bucket, table, now, ids[0]);
      if !(next.count > sc.count && next.count >= k.maxPerTick) {
        RetryScanCap(k, next, bucket, table, now, ids[1..]);
      }
    }
  }

  // ------------------------------------------------------------------------
  // Advance, tick and resume
  // ------------------------------------------------------------------------

  function DoneMarks(bucket: Store, e: nat, s: nat): set<Uri>
  {
    set u | u in bucket && u.DoneMark? && u.epoch == e && u.stage == s
  }

  predicate WeightsReady(cfg: Config, bucket: Store, e: nat)
  {
    forall s :: 0 <= s < |cfg.stages| && cfg.stages[s].hasOuter ==> Weights(e, s) in bucket
  }

  predicate EpochDone(cfg: Config, bucket: Store, e: nat)
    requires |cfg.stages| > 0
  {
    && |DoneMarks(bucket, e, |cfg.stages| - 1)| >= cfg.microbatches
    && (cfg.training ==> WeightsReady(cfg, bucket, e + 1))
  }

  function Advance(cfg: Config, o: Orch, bucket: Store): Orch
    requires |cfg.stages| > 0
  {
    if EpochDone(cfg, bucket, o.cursor) then o.(cursor := o.cursor + 1, completed := o.completed + [o.cursor]) else o
  }

  ghost function Tick(cfg: Config, k: Knobs, o: Orch, bucket: Store, infos: seq<WorkerInfo>, now: int,
                      graceOver: bool): Orch
    requires |cfg.stages| > 0
  {
    var table := StageTable(|cfg.stages|, infos, o.evicted, now);
    if o.cursor >= cfg.maxEpochs || (o.cursor == 0 && !graceOver) || !Coverage(table) then o
    else
      var emitted := Emit(cfg, k, o, table, Hosts(infos, o.evicted, now), now);
      Advance(cfg, Retry(cfg, k, emitted, bucket, table, now), bucket)
  }

  function Range(n: nat): seq<nat> { seq(n, i => i) }

  /** Resume at epoch `e`: refused when a weight file is missing, ignored when `e` is 0. */
  function Resume(cfg: Config, o: Orch, bucket: Store, e: nat): Option<Orch>
  {
    if e == 0 then Some(o.(startedAt := map[]))
    else if cfg.training && !WeightsReady(cfg, bucket, e) then None
    else Some(o.(cursor := e, completed := Range(e), startedAt := map[]))
  }
}
