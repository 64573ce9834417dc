/** Which workers the streaming scheduler chooses, first and on retries. */
module StreamingPlacement {
  import opened Common
  import opened Modulo
  import opened TakingTurns
  import opened Pipeline
  import opened Dataflow
  import opened StreamingOrch
  import opened Sorting

  // ------------------------------------------------------------------------
  // The lists of the stages
  // ------------------------------------------------------------------------

  /** A heartbeat of the last thirty seconds, of a worker that is not evicted, that names the stage. */
  predicate Beats(wi: WorkerInfo, evicted: set<WorkerId>, now: int, s: nat)
  {
    now - wi.lastSeen <= 30 && wi.id !in evicted && wi.stages.Some? && s in wi.stages.value
  }

  /** A heartbeat behind a candidate. */
  ghost function BeatOf(infos: seq<WorkerInfo>, evicted: set<WorkerId>, now: int, s: nat, r: Ranked): (wi: WorkerInfo)
    requires r in Candidates(infos, evicted, now, s)
    ensures wi in infos && Beats(wi, evicted, now, s) && wi.rtt == r.rtt && wi.id == r.id
  {
    CandidatesMember(infos, evicted, now, s, r);
    var wi :| wi in infos && StreamingOrch.Eligible(wi, evicted, now, s) && r == Ranked(wi.rtt, wi.id);
    wi
  }

  /** The places of a stage's list are those of such heartbeats, all of them, the shortest round trip first. */
  lemma StageListOrder(n: nat, infos: seq<WorkerInfo>, evicted: set<WorkerId>, now: int, s: nat)
    returns (beats: seq<WorkerInfo>)
    requires s < n
    ensures var list := StageTable(n, infos, evicted, now)[s];
            && |beats| == |list|
            && forall i :: 0 <= i < |list| ==>
                 beats[i] in infos && Beats(beats[i], evicted, now, s) && beats[i].id == list[i]
    ensures forall i, j :: 0 <= i < j < |beats| ==>
              beats[i].rtt < beats[j].rtt || (beats[i].rtt == beats[j].rtt && beats[i].id <= beats[j].id)
    ensures forall wi :: wi in infos && Beats(wi, evicted, now, s) ==>
              exists i :: 0 <= i < |beats| && beats[i].id == wi.id && beats[i].rtt == wi.rtt
  {
    var cs := Candidates(infos, evicted, now, s);
    var sorted := Sort(cs, RankedLeq);
    SortSorts(cs, RankedLeq);
    forall i | 0 <= i < |sorted| ensures sorted[i] in cs {
      assert sorted[i] in multiset(sorted);
    }
    beats := seq(|sorted|, i requires 0 <= i < |sorted| => BeatOf(infos, evicted, now, s, sorted[i]));
    forall wi | wi in infos && Beats(wi, evicted, now, s)
      ensures exists i :: 0 <= i < |beats| && beats[i].id == wi.id && beats[i].rtt == wi.rtt
    {
      CandidatesMember(infos, evicted, now, s, Ranked(wi.rtt, wi.id));
      assert Ranked(wi.rtt, wi.id) in multiset(sorted);
      var i :| 0 <= i < |sorted| && sorted[i] == Ranked(wi.rtt, wi.id);
      assert beats[i].id == wi.id && beats[i].rtt == wi.rtt;
    }
  }

  predicate Fresh(wi: WorkerInfo, evicted: set<WorkerId>, now: int)
  {
    now - wi.lastSeen <= 30 && wi.id !in evicted && wi.stages.Some?
  }

  predicate LastBeat(infos: seq<WorkerInfo>, evicted: set<WorkerId>, now: int, w: WorkerId, i: nat)
  {
    && i < |infos| && infos[i].id == w && Fresh(infos[i], evicted, now)
    && forall j :: i < j < |infos| && infos[j].id == w ==> !Fresh(infos[j], evicted, now)
  }

  /** A worker's host is that of the last of its fresh heartbeats. */
  lemma {:induction false} HostIsLast(infos: seq<WorkerInfo>, evicted: set<WorkerId>, now: int, w: WorkerId)
    ensures HostOf(Hosts(infos, evicted, now), w).Some? <==>
            exists i :: 0 <= i < |infos| && infos[i].id == w && Fresh(infos[i], evicted, now)
    ensures forall i: nat :: LastBeat(infos, evicted, now, w, i) ==>
              HostOf(Hosts(infos, evicted, now), w) == Some(infos[i].host)
    decreases |infos|
  {
    if infos != [] {
      var n := |infos| - 1;
      HostIsLast(infos[..n], evicted, now, w);
      assert forall i :: 0 <= i < n ==> infos[..n][i] == infos[i];
      if infos[n].id == w && Fresh(infos[n], evicted, now) {
        assert HostOf(Hosts(infos, evicted, now), w) == Some(infos[n].host);
      } else {
        assert HostOf(Hosts(infos, evicted, now), w) == HostOf(Hosts(infos[..n], evicted, now), w);
        forall i: nat | LastBeat(infos, evicted, now, w, i) ensures LastBeat(infos[..n], evicted, now, w, i) {
        }
      }
    }
  }

  // ------------------------------------------------------------------------
  // Filters keep the order
  // ------------------------------------------------------------------------

  /** The places before `i` whose workers are kept. */
  function Kept(ws: seq<WorkerId>, keep: WorkerId -> bool, i: nat): set<nat>
    requires i <= |ws|
  {
    set k: nat | k < i && keep(ws[k])
  }

  lemma KeptGrows(ws: seq<WorkerId>, keep: WorkerId -> bool, i: nat)
    requires i < |ws|
    ensures |Kept(ws, keep, i + 1)| == |Kept(ws, keep, i)| + if keep(ws[i]) then 1 else 0
  {
    assert Kept(ws, keep, i + 1) == Kept(ws, keep, i) + if keep(ws[i]) then {i} else {};
  }

  lemma KeptPrefix(ws: seq<WorkerId>, keep: WorkerId -> bool, m: nat, i: nat)
    requires i <= m <= |ws|
    ensures Kept(ws[..m], keep, i) == Kept(ws, keep, i)
  {
  }

  lemma {:induction false} FilterCount(ws: seq<WorkerId>, keep: WorkerId -> bool)
    ensures |Filter(ws, keep)| == |Kept(ws, keep, |ws|)|
    decreases |ws|
  {
    if ws != [] {
      var m := |ws| - 1;
      FilterCount(ws[..m], keep);
      KeptPrefix(ws, keep, m, m);
      KeptGrows(ws, keep, m);
    }
  }

  /** The worker at place `j` of a filtered list, and its place in the whole list. */
  lemma {:induction false} FilterFinds(ws: seq<WorkerId>, keep: WorkerId -> bool, j: nat) returns (i: nat)
    requires j < |Filter(ws, keep)|
    ensures i < |ws| && keep(ws[i]) && |Kept(ws, keep, i)| == j && Filter(ws, keep)[j] == ws[i]
    decreases |ws|
  {
    var m := |ws| - 1;
    if j < |Filter(ws[..m], keep)| {
      i := FilterFinds(ws[..m], keep, j);
    } else {
      i := m;
      FilterCount(ws[..m], keep);
    }
    KeptPrefix(ws, keep, m, i);
  }

  // ------------------------------------------------------------------------
  // Picking
  // ------------------------------------------------------------------------

  /** Place `i` holds the kept worker whose turn it is for the microbatch. */
  predicate InTurn(ws: seq<WorkerId>, keep: WorkerId -> bool, mb: nat, i: nat)
  {
    var count := |Kept(ws, keep, |ws|)|;
    i < |ws| && keep(ws[i]) && count > 0 && |Kept(ws, keep, i)| == mb % count
  }

  /**
   A microbatch goes to the workers on the preferred host in turn, in order of the list, if there are any, and
   otherwise to all workers of the list in turn.
   */
  lemma PickIs(pinned: seq<WorkerId>, prefer: Option<nat>, mb: nat, hosts: map<WorkerId, nat>)
    requires pinned != []
    ensures var near := Near(hosts, prefer);
            if prefer.Some? && Kept(pinned, near, |pinned|) != {}
            then exists i: nat :: InTurn(pinned, near, mb, i) && Pick(pinned, prefer, mb, hosts) == pinned[i]
            else Pick(pinned, prefer, mb, hosts) == pinned[mb % |pinned|]
  {
    var near := Near(hosts, prefer);
    var same := Filter(pinned, near);
    FilterCount(pinned, near);
    if prefer.Some? && same != [] {
      PickNear(pinned, prefer, mb, hosts, same);
      var i := FilterFinds(pinned, near, mb % |same|);
      assert InTurn(pinned, near, mb, i);
    } else if prefer.Some? {
      PickFar(pinned, prefer, mb, hosts);
    }
  }

  lemma PickNear(pinned: seq<WorkerId>, prefer: Option<nat>, mb: nat, hosts: map<WorkerId, nat>, same: seq<WorkerId>)
    requires pinned != [] && prefer.Some? && same != [] && same == Filter(pinned, Near(hosts, prefer))
    ensures Pick(pinned, prefer, mb, hosts) == same[mb % |same|]
  {
    assert same[0] in same;
    assert hosts != map[];
  }

  lemma PickFar(pinned: seq<WorkerId>, prefer: Option<nat>, mb: nat, hosts: map<WorkerId, nat>)
    requires pinned != [] && prefer.Some? && Filter(pinned, Near(hosts, prefer)) == []
    ensures Pick(pinned, prefer, mb, hosts) == pinned[mb % |pinned|]
  {
  }

  /** The microbatches of a stage whose forward jobs go to one worker. */
  function ForwardOf(table: seq<seq<WorkerId>>, hosts: map<WorkerId, nat>, s: nat, mbs: nat, w: WorkerId): set<nat>
    requires s < |table| && Coverage(table)
  {
    set mb: nat | mb < mbs && FwdAssignee(table, hosts, s, mb) == w
  }

  lemma ForwardInTurn(table: seq<seq<WorkerId>>, hosts: map<WorkerId, nat>, s: nat, mb: nat, j: nat)
    requires s < |table| && Coverage(table) && (s == 0 || hosts == map[]) && Distinct(table[s]) && j < |table[s]|
    ensures FwdAssignee(table, hosts, s, mb) == table[s][j] <==> Falls(mb, |table[s]|, j)
  {
  }

  /** In the first stage, and in every stage when no host is known, the microbatches are shared out evenly. */
  lemma ForwardBalanced(table: seq<seq<WorkerId>>, hosts: map<WorkerId, nat>, s: nat, mbs: nat, j: nat, k: nat)
    requires s < |table| && Coverage(table) && (s == 0 || hosts == map[]) && Distinct(table[s])
    requires j < |table[s]| && k < |table[s]|
    ensures |ForwardOf(table, hosts, s, mbs, table[s][j])| <= |ForwardOf(table, hosts, s, mbs, table[s][k])| + 1
  {
    var p := |table[s]|;
    forall mb: nat ensures FwdAssignee(table, hosts, s, mb) == table[s][j] <==> Falls(mb, p, j) {
      ForwardInTurn(table, hosts, s, mb, j);
    }
    forall mb: nat ensures FwdAssignee(table, hosts, s, mb) == table[s][k] <==> Falls(mb, p, k) {
      ForwardInTurn(table, hosts, s, mb, k);
    }
    assert ForwardOf(table, hosts, s, mbs, table[s][j]) == Turns(mbs, p, j);
    assert ForwardOf(table, hosts, s, mbs, table[s][k]) == Turns(mbs, p, k);
    TurnsDiffer(mbs, p, j, k, mbs % p);
  }

  predicate Serves(ws: seq<WorkerId>, hosts: map<WorkerId, nat>, host: nat)
  {
    exists w :: w in ws && HostOf(hosts, w) == Some(host)
  }

  /** A microbatch stays on the host it starts on as far as every stage has a worker there, forward and backward. */
  lemma {:induction false} StaysOnHost(table: seq<seq<WorkerId>>, hosts: map<WorkerId, nat>, s: nat, mb: nat, host: nat)
    requires s < |table| && Coverage(table) && HostOf(hosts, FwdAssignee(table, hosts, 0, mb)) == Some(host)
    requires forall t :: 0 <= t <= s ==> Serves(table[t], hosts, host)
    ensures HostOf(hosts, FwdAssignee(table, hosts, s, mb)) == Some(host)
    ensures HostOf(hosts, BwdAssignee(table, hosts, s, mb)) == Some(host)
    decreases s
  {
    if s > 0 {
      StaysOnHost(table, hosts, s - 1, mb, host);
      assert Serves(table[s], hosts, host);
    }
  }

  // ------------------------------------------------------------------------
  // Retries
  // ------------------------------------------------------------------------

  /** Another worker of the stage that has not been tried, or any other one when all of them have been. */
  ghost predicate MayTake(table: seq<seq<WorkerId>>, s: nat, current: WorkerId, tried: set<WorkerId>, w: WorkerId)
  {
    && s < |table| && w in table[s] && w != current
    && (w in tried ==> forall v :: v in table[s] ==> v == current || v in tried)
  }

  /** The first place of a list whose worker is kept. */
  lemma FilterFirst(ws: seq<WorkerId>, keep: WorkerId -> bool) returns (i: nat)
    requires Filter(ws, keep) != []
    ensures i < |ws| && keep(ws[i]) && Filter(ws, keep)[0] == ws[i] && forall k :: 0 <= k < i ==> !keep(ws[k])
  {
    i := FilterFinds(ws, keep, 0);
    forall k | 0 <= k < i ensures !keep(ws[k]) {
      assert k !in Kept(ws, keep, i);
    }
  }

  function Both(f: WorkerId -> bool, g: WorkerId -> bool): WorkerId -> bool { (w: WorkerId) => f(w) && g(w) }

  lemma {:induction false} FilterTwice(ws: seq<WorkerId>, f: WorkerId -> bool, g: WorkerId -> bool)
    ensures Filter(Filter(ws, f), g) == Filter(ws, Both(f, g))
    decreases |ws|
  {
    if ws != [] {
      var m := |ws| - 1;
      FilterTwice(ws[..m], f, g);
      var init := Filter(ws[..m], f);
      assert (init + [ws[m]])[..|init|] == init && init + [] == init;
    }
  }

  /** The workers a job may move to are the eligible ones, and the first of them is the first in the stage's list. */
  lemma ReplacementsAre(table: seq<seq<WorkerId>>, s: nat, current: WorkerId, tried: set<WorkerId>, w: WorkerId)
    ensures w in Replacements(table, s, current, tried) <==> MayTake(table, s, current, tried, w)
  {
    if s < |table| {
      var others := Filter(table[s], OtherThan(current));
      var unused := Filter(others, NotAmong(tried));
      if unused != [] {
        assert unused[0] in unused;
      } else {
        assert forall v :: v in others ==> v !in unused;
      }
    }
  }

  ghost predicate FirstToTake(table: seq<seq<WorkerId>>, s: nat, current: WorkerId, tried: set<WorkerId>, i: nat)
  {
    && s < |table| && i < |table[s]| && MayTake(table, s, current, tried, table[s][i])
    && forall k :: 0 <= k < i ==> !MayTake(table, s, current, tried, table[s][k])
  }

  /** The pool as one filter of the stage's list: one that keeps exactly the eligible workers. */
  lemma PoolFilter(table: seq<seq<WorkerId>>, s: nat, current: WorkerId, tried: set<WorkerId>)
    returns (keep: WorkerId -> bool)
    requires s < |table|
    ensures Replacements(table, s, current, tried) == Filter(table[s], keep)
    ensures forall w :: w in table[s] && keep(w) ==> w in Replacements(table, s, current, tried)
    ensures forall w :: w in Replacements(table, s, current, tried) ==> keep(w)
  {
    var other, unused := OtherThan(current), NotAmong(tried);
    FilterTwice(table[s], other, unused);
    keep := if Filter(Filter(table[s], other), unused) != [] then Both(other, unused) else other;
  }

  lemma FirstReplacement(table: seq<seq<WorkerId>>, s: nat, current: WorkerId, tried: set<WorkerId>) returns (i: nat)
    requires Replacements(table, s, current, tried) != []
    ensures FirstToTake(table, s, current, tried, i) && Replacements(table, s, current, tried)[0] == table[s][i]
  {
    var keep := PoolFilter(table, s, current, tried);
    i := FilterFirst(table[s], keep);
    forall k | 0 <= k <= i ensures keep(table[s][k]) <==> MayTake(table, s, current, tried, table[s][k]) {
      ReplacementsAre(table, s, current, tried, table[s][k]);
    }
  }

  /**
   The job has attempts left, an output missing and no input missing, and its worker is in no list or this is the
   last attempt.
   */
  ghost predicate Overdue(k: Knobs, sc: Scan, bucket: Store, table: seq<seq<WorkerId>>, id: JobId)
  {
    && id in sc.manifests
    && var m, n := sc.manifests[id], Attempts(sc.retried, id);
    && n < k.maxRetries
    && (exists o :: o in m.task.outputs && o.uri !in bucket)
    && (forall i :: i in m.task.inputs ==> i.uri in bucket)
    && (n + 1 == k.maxRetries || forall s :: 0 <= s < |table| ==> m.assignee !in table[s])
  }

  lemma StaleIff(k: Knobs, sc: Scan, bucket: Store, table: seq<seq<WorkerId>>, id: JobId)
    ensures Stale(k, sc, bucket, table, id) <==> Overdue(k, sc, bucket, table, id)
  {
  }

  /** Some other worker serves the job's stage. */
  ghost predicate HasOther(table: seq<seq<WorkerId>>, m: Manifest)
  {
    m.task.id.stage < |table| && exists w :: w in table[m.task.id.stage] && w != m.assignee
  }

  /**
   What looking at one job does. A job that is not overdue is left alone. The worker of an overdue job is evicted
   exactly on the last attempt, whether or not anybody can take over; and if another worker serves the stage, the
   job moves to the first eligible one with a new deadline, and both workers count as tried.
   */
  lemma RetryMoves(k: Knobs, sc: Scan, bucket: Store, table: seq<seq<WorkerId>>, now: int, id: JobId)
    ensures var next := RetryOne(k, sc, bucket, table, now, id);
            if !Overdue(k, sc, bucket, table, id) then next == sc
            else
              var m, n, tried := sc.manifests[id], Attempts(sc.retried, id), Tried(sc.retried, id);
              && (forall w :: w in next.evicted <==> w in sc.evicted || (w == m.assignee && n + 1 == k.maxRetries))
              && if !HasOther(table, m) then next == sc.(evicted := next.evicted)
                 else
                   exists i: nat ::
                     && FirstToTake(table, m.task.id.stage, m.assignee, tried, i)
                     && MovedTo(k, sc, next, now, id, table[m.task.id.stage][i])
  {
    StaleIff(k, sc, bucket, table, id);
    if Stale(k, sc, bucket, table, id) {
      var m, tried := sc.manifests[id], Tried(sc.retried, id);
      var pool := Replacements(table, m.task.id.stage, m.assignee, tried);
      PoolIff(table, m, tried);
      if pool != [] {
        var i := FirstReplacement(table, m.task.id.stage, m.assignee, tried);
        MovesTo(k, sc, bucket, table, now, id, table[m.task.id.stage][i]);
      }
    }
  }

  lemma PoolIff(table: seq<seq<WorkerId>>, m: Manifest, tried: set<WorkerId>)
    ensures HasOther(table, m) <==> Replacements(table, m.task.id.stage, m.assignee, tried) != []
  {
    var s, pool := m.task.id.stage, Replacements(table, m.task.id.stage, m.assignee, tried);
    if pool != [] {
      ReplacementsAre(table, s, m.assignee, tried, pool[0]);
    } else if HasOther(table, m) {
      forall w | w in table[s] ensures w == m.assignee || w in tried {
        ReplacementsAre(table, s, m.assignee, tried, w);
      }
      var w :| w in table[s] && w != m.assignee;
      ReplacementsAre(table, s, m.assignee, tried, w);
    }
  }

  /** One job given to a worker, and nothing else changed. */
  ghost predicate MovedTo(k: Knobs, sc: Scan, next: Scan, now: int, id: JobId, w: WorkerId)
  {
    && id in sc.manifests
    && next.count == sc.count + 1
    && next.manifests.Keys == sc.manifests.Keys
    && next.manifests[id].task == sc.manifests[id].task
    && next.manifests[id].assignee == w
    && next.manifests[id].deadline - now == k.deadlineSec
    && (forall j :: j in sc.manifests && j != id ==> next.manifests[j] == sc.manifests[j])
    && Attempts(next.retried, id) == Attempts(sc.retried, id) + 1
    && (forall v :: v in Tried(next.retried, id) <==>
          v in Tried(sc.retried, id) || v == w || v == sc.manifests[id].assignee)
    && (forall j :: j != id ==>
          Attempts(next.retried, j) == Attempts(sc.retried, j) && Tried(next.retried, j) == Tried(sc.retried, j))
  }

  lemma MovesTo(k: Knobs, sc: Scan, bucket: Store, table: seq<seq<WorkerId>>, now: int, id: JobId, w: WorkerId)
    requires Stale(k, sc, bucket, table, id)
    requires var m := sc.manifests[id];
             var pool := Replacements(table, m.task.id.stage, m.assignee, Tried(sc.retried, id));
             pool != [] && w == pool[0]
    ensures MovedTo(k, sc, RetryOne(k, sc, bucket, table, now, id), now, id, w)
  {
  }
}
