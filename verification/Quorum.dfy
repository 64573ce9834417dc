/** How replicas of inner steps are placed on workers, and which quorums can be met. */
module Quorum {
  import opened Common
  import opened Modulo
  import opened PinTable

  /** The worker that gets slot `i` of a list. */
  function RoundRobin(pinned: seq<WorkerId>, i: nat): WorkerId
    requires pinned != []
  {
    pinned[i % |pinned|]
  }

  /** The workers a block's inner steps go to: its own, or all when it has none. */
  function Servers(pin: seq<WorkerId>, workers: seq<WorkerId>): seq<WorkerId> { if pin != [] then pin else workers }

  /** A delta is stored under its microbatch and the worker that makes it, not under its replica. */
  type Key = (nat, WorkerId)

  /** The keys of the deltas of one microbatch whose `n` replicas take the slots from `base` on. */
  function KeysOf(pinned: seq<WorkerId>, mb: nat, base: nat, n: nat): set<Key>
    requires pinned != []
  {
    if n == 0 then {} else KeysOf(pinned, mb, base, n - 1) + {(mb, RoundRobin(pinned, base + n - 1))}
  }

  function DeltaKeys(pinned: seq<WorkerId>, replicas: nat, mbs: nat): set<Key>
    requires pinned != []
  {
    if mbs == 0 then {}
    else DeltaKeys(pinned, replicas, mbs - 1) + KeysOf(pinned, mbs - 1, (mbs - 1) * replicas, replicas)
  }

  /** The keys as the emission loops produce them. */
  method EmitInner(pinned: seq<WorkerId>, replicas: nat, mbs: nat) returns (keys: set<Key>)
    requires pinned != []
    ensures keys == DeltaKeys(pinned, replicas, mbs)
  {
    keys := {};
    for mb := 0 to mbs
      invariant keys == DeltaKeys(pinned, replicas, mb)
    {
      for r := 0 to replicas
        invariant keys == DeltaKeys(pinned, replicas, mb) + KeysOf(pinned, mb, mb * replicas, r)
      {
        var slot := mb * replicas + r;
        keys := keys + {(mb, RoundRobin(pinned, slot))};
      }
    }
  }

  function Min(a: nat, b: nat): nat { if a <= b then a else b }

  predicate Holds(pinned: seq<WorkerId>, slot: nat, w: WorkerId)
    requires pinned != []
  {
    w == RoundRobin(pinned, slot)
  }

  lemma {:induction false} KeysMembers(pinned: seq<WorkerId>, mb: nat, base: nat, n: nat, k: Key)
    requires pinned != []
    ensures k in KeysOf(pinned, mb, base, n) <==>
            k.0 == mb && exists slot :: base <= slot < base + n && Holds(pinned, slot, k.1)
    decreases n
  {
    if n > 0 {
      KeysMembers(pinned, mb, base, n - 1, k);
      if k.0 == mb && k.1 == RoundRobin(pinned, base + n - 1) {
        assert Holds(pinned, base + n - 1, k.1);
      }
    }
  }

  /** Slots less than a list's length apart go to different workers. */
  lemma SlotsApart(pinned: seq<WorkerId>, a: nat, b: nat)
    requires pinned != [] && Distinct(pinned) && a < b < a + |pinned|
    ensures RoundRobin(pinned, a) != RoundRobin(pinned, b)
  {
    if a % |pinned| == b % |pinned| {
      ModUnique(a, b, |pinned|);
    }
  }

  /** A slot a list's length later goes to the same worker. */
  lemma SlotsWrap(pinned: seq<WorkerId>, a: nat)
    requires pinned != [] && a >= |pinned|
    ensures RoundRobin(pinned, a) == RoundRobin(pinned, a - |pinned|)
  {
    ModStep(a, |pinned|, (a - |pinned|) % |pinned|, a % |pinned|);
  }

  /** One more replica brings a new key exactly as long as there are workers left. */
  lemma NewKey(pinned: seq<WorkerId>, mb: nat, base: nat, n: nat)
    requires pinned != [] && Distinct(pinned)
    ensures (mb, RoundRobin(pinned, base + n)) in KeysOf(pinned, mb, base, n) <==> n >= |pinned|
  {
    var k := (mb, RoundRobin(pinned, base + n));
    KeysMembers(pinned, mb, base, n, k);
    if n >= |pinned| {
      SlotsWrap(pinned, base + n);
      assert Holds(pinned, base + n - |pinned|, k.1);
    } else if k in KeysOf(pinned, mb, base, n) {
      var slot :| base <= slot < base + n && Holds(pinned, slot, k.1);
      SlotsApart(pinned, slot, base + n);
    }
  }

  lemma OneMoreKey(keys: set<Key>, k: Key)
    ensures |keys + {k}| == |keys| + if k in keys then 0 else 1
  {
    if k in keys {
      assert keys + {k} == keys;
    }
  }

  lemma {:induction false} KeysCounted(pinned: seq<WorkerId>, mb: nat, base: nat, n: nat)
    requires pinned != [] && Distinct(pinned)
    ensures |KeysOf(pinned, mb, base, n)| == Min(n, |pinned|)
    decreases n
  {
    if n > 0 {
      var before, slot := KeysOf(pinned, mb, base, n - 1), base + (n - 1);
      KeysCounted(pinned, mb, base, n - 1);
      NewKey(pinned, mb, base, n - 1);
      OneMoreKey(before, (mb, RoundRobin(pinned, slot)));
    }
  }

  lemma {:induction false} EarlierKeys(pinned: seq<WorkerId>, replicas: nat, mbs: nat, k: Key)
    requires pinned != [] && k in DeltaKeys(pinned, replicas, mbs)
    ensures k.0 < mbs
    decreases mbs
  {
    KeysMembers(pinned, mbs - 1, (mbs - 1) * replicas, replicas, k);
    if k in DeltaKeys(pinned, replicas, mbs - 1) {
      EarlierKeys(pinned, replicas, mbs - 1, k);
    }
  }

  lemma DisjointUnion<T>(a: set<T>, b: set<T>)
    requires a !! b
    ensures |a + b| == |a| + |b|
  {
  }

  lemma KeysApart(pinned: seq<WorkerId>, replicas: nat, mbs: nat, base: nat)
    requires pinned != []
    ensures DeltaKeys(pinned, replicas, mbs) !! KeysOf(pinned, mbs, base, replicas)
  {
    forall k | k in DeltaKeys(pinned, replicas, mbs) ensures k !in KeysOf(pinned, mbs, base, replicas) {
      EarlierKeys(pinned, replicas, mbs, k);
      KeysMembers(pinned, mbs, base, replicas, k);
    }
  }

  lemma AddProduct(n: nat, m: nat, a: nat)
    requires n >= 1 && a == (n - 1) * m
    ensures a + m == n * m
  {
  }

  lemma OneMoreMicrobatch(pinned: seq<WorkerId>, replicas: nat, mbs: nat)
    requires pinned != [] && Distinct(pinned) && mbs > 0
    ensures |DeltaKeys(pinned, replicas, mbs)| == |DeltaKeys(pinned, replicas, mbs - 1)| + Min(replicas, |pinned|)
  {
    var base := (mbs - 1) * replicas;
    KeysCounted(pinned, mbs - 1, base, replicas);
    KeysApart(pinned, replicas, mbs - 1, base);
    DisjointUnion(DeltaKeys(pinned, replicas, mbs - 1), KeysOf(pinned, mbs - 1, base, replicas));
  }

  /** A block has exactly one delta for each microbatch and each of min(R, P) workers. */
  lemma {:induction false} DeltasCounted(pinned: seq<WorkerId>, replicas: nat, mbs: nat)
    requires pinned != [] && Distinct(pinned)
    ensures |DeltaKeys(pinned, replicas, mbs)| == mbs * Min(replicas, |pinned|)
    decreases mbs
  {
    if mbs > 0 {
      DeltasCounted(pinned, replicas, mbs - 1);
      OneMoreMicrobatch(pinned, replicas, mbs);
      AddProduct(mbs, Min(replicas, |pinned|), |DeltaKeys(pinned, replicas, mbs - 1)|);
    }
  }

  // ------------------------------------------------------------------------
  // Which quorums can be met
  // ------------------------------------------------------------------------

  /** The settings of the quorum: replicas, microbatches, and targets per replica if they are set. */
  datatype Params = Params(replicas: nat, mbs: nat, target: Option<nat>, least: Option<nat>, maxSec: real)

  function AtLeast(a: nat, b: nat): nat { if a >= b then a else b }

  /** Deltas per microbatch that the quorum asks for: as set, or all replicas, or half of them rounded up. */
  function TargetEach(p: Params): nat { if p.target.Some? then p.target.value else p.replicas }

  function LeastEach(p: Params): nat { if p.least.Some? then p.least.value else AtLeast(1, (p.replicas + 1) / 2) }

  function Target(p: Params): nat { TargetEach(p) * AtLeast(1, p.mbs) }

  function Least(p: Params): nat { LeastEach(p) * AtLeast(1, p.mbs) }

  predicate QuorumMet(p: Params, count: nat, elapsed: real)
  {
    count >= Target(p) || (elapsed >= p.maxSec && count >= Least(p))
  }

  lemma Multiples(m: nat, a: nat, b: nat)
    requires m >= 1
    ensures m * a >= b * m <==> a >= b
  {
    if a >= b {
      assert m * a == b * m + (a - b) * m;
    } else {
      assert b * m == m * a + (b - a) * m;
      assert (b - a) * m >= 1;
    }
  }

  /**
   Once every inner step is done, the quorum is met if and only if min(R, P) workers reach the number asked of
   each microbatch, or reach the least number and the time is up. By default that is P >= R, or P >= R/2 rounded up.
   */
  lemma QuorumReachable(p: Params, pinned: seq<WorkerId>, elapsed: real)
    requires pinned != [] && Distinct(pinned) && p.mbs >= 1
    ensures var count, each := |DeltaKeys(pinned, p.replicas, p.mbs)|, Min(p.replicas, |pinned|);
            && (QuorumMet(p, count, elapsed) <==>
              each >= TargetEach(p) || (elapsed >= p.maxSec && each >= LeastEach(p)))
            && (p.replicas >= 1 && p.target.None? ==> (each >= TargetEach(p) <==> |pinned| >= p.replicas))
            && (p.replicas >= 1 && p.least.None? ==> (each >= LeastEach(p) <==> |pinned| >= (p.replicas + 1) / 2))
  {
    DeltasCounted(pinned, p.replicas, p.mbs);
    var m := Min(p.replicas, |pinned|);
    Multiples(p.mbs, m, TargetEach(p));
    Multiples(p.mbs, m, LeastEach(p));
  }

  // ------------------------------------------------------------------------
  // Coverage
  // ------------------------------------------------------------------------

  predicate CoverageOk(pin: seq<seq<WorkerId>>, replicas: nat)
  {
    forall ub :: 0 <= ub < |pin| ==> |pin[ub]| >= AtLeast(1, replicas)
  }

  /** With coverage, every block and microbatch is served by as many different workers as there are replicas. */
  lemma CoverageSpreads(pin: seq<seq<WorkerId>>, replicas: nat, ub: nat, mb: nat)
    requires CoverageOk(pin, replicas) && ub < |pin| && Distinct(pin[ub])
    ensures |KeysOf(pin[ub], mb, mb * replicas, replicas)| == replicas
  {
    KeysCounted(pin[ub], mb, mb * replicas, replicas);
  }
}
