/** One rank of the fleet as it runs: waiting for peers, averaging their bodies, stepping its parameters. */
module FleetWorker {
  import opened Common
  import opened Reals
  import opened Mean
  import EF = ErrorFeedback
  import opened Fleet

  /**
   Polls the bucket until every rank's body has been seen or the time is up. `polls` are the ranks
   whose bodies exist at each poll before the deadline.
   */
  method WaitForAllPeers(polls: seq<set<nat>>, world: nat, mine: Option<nat>) returns (ok: bool)
    requires mine.Some? ==> mine.value < world
    ensures ok <==> polls != [] && SeenAll(polls, world, mine)
  {
    var seen: set<nat> := if mine.Some? then {mine.value} else {};
    for i := 0 to |polls|
      invariant forall r: nat :: r in seen <==> r < world && SeenRank(polls[..i], r, mine)
      invariant i > 0 ==> !SeenAll(polls[..i], world, mine)
    {
      assert polls[..i + 1] == polls[..i] + [polls[i]];
      for r := 0 to world
        invariant forall q: nat :: q in seen <==>
                  q < world && (SeenRank(polls[..i], q, mine) || (q < r && q in polls[i]))
      {
        if r !in seen && r in polls[i] {
          seen := seen + {r};
        }
      }
      AllSeen(seen, world);
      forall r: nat | r < world ensures r in seen <==> SeenRank(polls[..i + 1], r, mine) {
        SeenOneMore(polls[..i], polls[i], r, mine);
      }
      if |seen| == world {
        SeenMore(polls, i + 1, world, mine);
        return true;
      }
    }
    assert polls[..|polls|] == polls;
    return false;
  }

  lemma SeenOneMore(polls: seq<set<nat>>, poll: set<nat>, r: nat, mine: Option<nat>)
    ensures SeenRank(polls + [poll], r, mine) <==> SeenRank(polls, r, mine) || r in poll
  {
    var more := polls + [poll];
    assert more[|polls|] == poll;
    if i :| 0 <= i < |polls| && r in polls[i] {
      assert r in more[i];
    }
  }

  lemma SeenMore(polls: seq<set<nat>>, n: nat, world: nat, mine: Option<nat>)
    requires n <= |polls| && SeenAll(polls[..n], world, mine)
    ensures SeenAll(polls, world, mine)
  {
    forall r | 0 <= r < world ensures SeenRank(polls, r, mine) {
      assert SeenRank(polls[..n], r, mine);
      if mine != Some(r) {
        var i :| 0 <= i < n && r in polls[..n][i];
        assert r in polls[i];
      }
    }
  }

  predicate SeenRank(polls: seq<set<nat>>, r: nat, mine: Option<nat>)
  {
    mine == Some(r) || exists i :: 0 <= i < |polls| && r in polls[i]
  }

  predicate SeenAll(polls: seq<set<nat>>, world: nat, mine: Option<nat>)
  {
    forall r :: 0 <= r < world ==> SeenRank(polls, r, mine)
  }

  lemma AllSeen(seen: set<nat>, world: nat)
    requires forall r :: r in seen ==> r < world
    ensures |seen| == world <==> forall r: nat :: r < world ==> r in seen
  {
    FullRange(seen, world);
    if forall r: nat :: r < world ==> r in seen {
      Enough(seen, world);
    }
  }

  lemma {:induction false} Enough(seen: set<nat>, world: nat)
    requires forall r: nat :: r < world ==> r in seen
    ensures |seen| >= world
    decreases world
  {
    if world > 0 {
      Enough(seen - {world - 1}, world - 1);
      assert seen == seen - {world - 1} + {world - 1};
    }
  }

  /**
   With bodies that stay once they are there, every rank has been seen exactly when the last poll finds every
   other rank's body.
   */
  lemma SeenAllIff(polls: seq<set<nat>>, world: nat, mine: Option<nat>)
    requires polls != [] && forall i, j :: 0 <= i <= j < |polls| ==> polls[i] <= polls[j]
    ensures SeenAll(polls, world, mine) <==> forall r: nat :: r < world && mine != Some(r) ==> r in polls[|polls| - 1]
  {
    if SeenAll(polls, world, mine) {
      forall r: nat | r < world && mine != Some(r) ensures r in polls[|polls| - 1] {
        assert SeenRank(polls, r, mine);
      }
    }
  }

  /** The rank's own vector first, then those of the other ranks in ascending order; `vs` are all of them. */
  method OwnThenOthers<B>(w: World<B>, t: nat, own: nat, sent: Vec, peers: map<(nat, nat), B>, ghost vs: seq<Vec>)
    returns (avg: Vec)
    requires own < w.ranks == |vs| && SameSize(w.size, vs) && vs[own] == sent
    requires forall q :: 0 <= q < w.ranks ==> (t, q) in peers && (q != own ==> w.unwire(peers[(t, q)]) == vs[q])
    ensures avg == Mean.Mean(w.size, w.ranks, vs)
  {
    avg := Zeros(w.size);
    avg := Add(avg, Over(sent, w.ranks));
    ghost var first := avg;
    for q := 0 to w.ranks
      invariant avg == Onto(w.size, w.ranks, first, vs[..q], own)
    {
      assert vs[..q + 1][..q] == vs[..q];
      if q != own {
        avg := Add(avg, Over(w.unwire(peers[(t, q)]), w.ranks));
      }
    }
    assert vs[..w.ranks] == vs;
    OntoIsMean(w.size, w.ranks, first, vs, own);
  }

  /** Entry by entry, the new parameters and alpha times the average make the old ones. */
  predicate MovedBy(alpha: real, before: Vec, avg: Vec, after: Vec)
  {
    |before| == |avg| == |after| && forall i :: 0 <= i < |after| ==> after[i] + alpha * avg[i] == before[i]
  }

  class Worker<B> {
    const rank: nat
    var k: Rank

    constructor (w: World<B>, rank: nat)
      ensures this.rank == rank && k == Rank(w.init, Zeros(w.size), 0, None, false)
    {
      this.rank := rank;
      k := Rank(w.init, Zeros(w.size), 0, None, false);
    }

    /** Trains, compresses the difference with error feedback, and returns the body to upload. */
    method TrainAndUpload(w: World<B>) returns (body: B)
      requires Valid(w) && Sized(w, k) && k.sent.None?
      modifies this`k
      ensures k == Uploaded(w, rank, old(k)) && body == w.wire(Acc(w, rank, old(k)))
    {
      var delta := Sub(k.theta, w.train(rank, k.done, k.theta));
      var acc := EF.Accumulated(w.beta, k.ef, delta);
      var sent := w.dense(acc);
      k := k.(ef := Sub(acc, sent), sent := Some(sent));
      body := w.wire(acc);
    }

    /** Averages the rank's own vector with the peers' bodies, given in ascending order of rank. */
    method AveragePeers(w: World<B>, peers: map<(nat, nat), B>) returns (avg: Vec)
      requires Valid(w) && Sized(w, k) && k.sent.Some? && rank < w.ranks
      requires forall q :: 0 <= q < w.ranks ==> (k.done, q) in peers && |w.unwire(peers[(k.done, q)])| == w.size
      ensures var vs := Seen(w, peers, k.done, rank, k.sent.value);
              SameSize(w.size, vs) && avg == Mean.Mean(w.size, w.ranks, vs)
    {
      ghost var vs := Seen(w, peers, k.done, rank, k.sent.value);
      avg := OwnThenOthers(w, k.done, rank, k.sent.value, peers, vs);
    }

    /** Steps the parameters from before training against the average. */
    method ApplyOuter(w: World<B>, avg: Vec)
      requires |k.theta| == |avg|
      modifies this`k
      ensures k == Completed(w, old(k), avg)
      ensures MovedBy(w.alpha, old(k).theta, avg, k.theta)
    {
      k := k.(theta := Sub(k.theta, Scaled(w.alpha, avg)), done := k.done + 1, sent := None);
    }

    /** Waits for all peers and averages their bodies; nothing once the time is up. */
    method Collected(w: World<B>, polls: seq<set<nat>>, peers: map<(nat, nat), B>) returns (avg: Option<Vec>)
      requires Valid(w) && Sized(w, k) && k.sent.Some? && rank < w.ranks && (k.done, rank) in peers
      requires forall i, r: nat :: 0 <= i < |polls| && r in polls[i] && r < w.ranks ==> (k.done, r) in peers
      requires forall q :: q in peers ==> |w.unwire(peers[q])| == w.size
      ensures avg.Some? <==> polls != [] && SeenAll(polls, w.ranks, Some(rank))
      ensures avg.Some? ==>
                && (forall q :: 0 <= q < w.ranks ==> (k.done, q) in peers)
                && var vs := Seen(w, peers, k.done, rank, k.sent.value);
                   SameSize(w.size, vs) && avg.value == Mean.Mean(w.size, w.ranks, vs)
    {
      var ok := WaitForAllPeers(polls, w.ranks, Some(rank));
      if !ok {
        return None;
      }
      forall q: nat | q < w.ranks ensures (k.done, q) in peers {
        assert SeenRank(polls, q, Some(rank));
      }
      var mean := AveragePeers(w, peers);
      return Some(mean);
    }

    /**
     One outer step of the rank: train and upload, wait, average or read the average, and step the parameters.
     `s` is the fleet when the step begins, and `later` the fleet when the bucket is read. What the rank does is
     the upload in the one and, in the other, its aggregation step, or its halt if it has waited in vain.
     */
    method OuterStep(w: World<B>, polls: seq<set<nat>>, peers: map<(nat, nat), B>, aggregates: map<nat, Vec>,
                     ghost s: State<B>, ghost later: State<B>)
      returns (body: B, published: Option<Vec>)
      requires Valid(w) && AllSized(w, s) && Enabled(w, s, Upload(rank)) && k == s.ranks[rank]
      requires AllSized(w, later) && later.ranks[rank] == Apply(w, s, Upload(rank)).ranks[rank]
      requires later.peers == peers && later.aggregates == aggregates && (k.done, rank) in peers
      requires forall i, r: nat :: 0 <= i < |polls| && r in polls[i] && r < w.ranks ==> (k.done, r) in peers
      modifies this`k
      ensures var t := old(k).done;
              (t, rank) in Apply(w, s, Upload(rank)).peers && body == Apply(w, s, Upload(rank)).peers[(t, rank)]
      ensures k.halted <==> if w.star && rank != 0 then old(k).done !in aggregates
                            else polls == [] || !SeenAll(polls, w.ranks, Some(rank))
      ensures var step := if k.halted then Halt(rank) else AggregationOf(w, rank);
              Enabled(w, later, step) && k == Apply(w, later, step).ranks[rank]
      ensures published.Some? <==> w.star && rank == 0 && !k.halted
      ensures published.Some? ==>
                && Enabled(w, later, Collect)
                && Apply(w, later, Collect).aggregates == aggregates[old(k).done := published.value]
                && MovedBy(w.alpha, old(k).theta, published.value, k.theta)
      ensures w.star && rank != 0 && !k.halted ==>
                MovedBy(w.alpha, old(k).theta, aggregates[old(k).done], k.theta)
    {
      body := TrainAndUpload(w);
      published := None;
      var avg: Option<Vec>;
      if w.star && rank != 0 {
        avg := if k.done in aggregates then Some(aggregates[k.done]) else None;
      } else {
        avg := Collected(w, polls, peers);
      }
      if avg.None? {
        k := k.(halted := true);
      } else {
        if w.star && rank == 0 {
          published := avg;
        }
        ApplyOuter(w, avg.value);
      }
    }
  }

  /** The step in which a rank gets its average. */
  function AggregationOf<B>(w: World<B>, r: nat): Step
  {
    if !w.star then Aggregate(r) else if r == 0 then Collect else Fetch(r)
  }
}
