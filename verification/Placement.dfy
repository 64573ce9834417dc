/** How evenly work is placed: round robin over the slots of a list, and the lists of blocks that nobody asks for. */
module Placement {
  import opened Common
  import opened Modulo
  import opened PinTable
  import opened Quorum
  import opened TakingTurns

  // ------------------------------------------------------------------------
  // Inner steps
  // ------------------------------------------------------------------------

  /** The replica that a worker makes of a microbatch. */
  predicate TakesReplica(pinned: seq<WorkerId>, replicas: nat, mb: nat, r: nat, w: WorkerId)
    requires pinned != []
  {
    r < replicas && w == pinned[(mb * replicas + r) % |pinned|]
  }

  lemma MicrobatchKeys(pinned: seq<WorkerId>, replicas: nat, mb: nat, k: Key)
    requires pinned != []
    ensures k in KeysOf(pinned, mb, mb * replicas, replicas) <==>
            k.0 == mb && exists r: nat :: TakesReplica(pinned, replicas, mb, r, k.1)
  {
    KeysMembers(pinned, mb, mb * replicas, replicas, k);
    if slot :| mb * replicas <= slot < mb * replicas + replicas && Holds(pinned, slot, k.1) {
      assert TakesReplica(pinned, replicas, mb, slot - mb * replicas, k.1);
    }
    if r: nat :| TakesReplica(pinned, replicas, mb, r, k.1) {
      assert Holds(pinned, mb * replicas + r, k.1);
    }
  }

  /** The deltas of a block: replica `r` of microbatch `mb` is made by the worker at slot mb R + r, counted round. */
  lemma {:induction false} DeltasAre(pinned: seq<WorkerId>, replicas: nat, mbs: nat, k: Key)
    requires pinned != []
    ensures k in DeltaKeys(pinned, replicas, mbs) <==>
            k.0 < mbs && exists r: nat :: TakesReplica(pinned, replicas, k.0, r, k.1)
    decreases mbs
  {
    if mbs > 0 {
      DeltasAre(pinned, replicas, mbs - 1, k);
      MicrobatchKeys(pinned, replicas, mbs - 1, k);
    }
  }

  /** The deltas that one worker makes. */
  function HeldBy(keys: set<Key>, w: WorkerId): set<Key> { set k | k in keys && k.1 == w }

  lemma OneMoreHeld(keys: set<Key>, k: Key, w: WorkerId)
    requires k !in keys
    ensures |HeldBy(keys + {k}, w)| == |HeldBy(keys, w)| + if k.1 == w then 1 else 0
  {
    assert HeldBy(keys + {k}, w) == HeldBy(keys, w) + if k.1 == w then {k} else {};
  }

  /** The deltas of the microbatches before `mb` and of the first `n` replicas of this one. */
  function Made(pinned: seq<WorkerId>, replicas: nat, mb: nat, n: nat): set<Key>
    requires pinned != []
  {
    DeltaKeys(pinned, replicas, mb) + KeysOf(pinned, mb, mb * replicas, n)
  }

  lemma NextMade(pinned: seq<WorkerId>, replicas: nat, mb: nat, n: nat, k: Key)
    requires pinned != [] && Distinct(pinned) && n < |pinned|
    requires k == (mb, RoundRobin(pinned, mb * replicas + n))
    ensures k !in Made(pinned, replicas, mb, n)
    ensures Made(pinned, replicas, mb, n + 1) == Made(pinned, replicas, mb, n) + {k}
  {
    NewKey(pinned, mb, mb * replicas, n);
    if k in DeltaKeys(pinned, replicas, mb) {
      EarlierKeys(pinned, replicas, mb, k);
    }
  }

  lemma SamePlace(pinned: seq<WorkerId>, slot: nat, j: nat)
    requires Distinct(pinned) && j < |pinned|
    ensures RoundRobin(pinned, slot) == pinned[j] <==> slot % |pinned| == j
  {
  }

  lemma NextHeld(pinned: seq<WorkerId>, replicas: nat, mb: nat, n: nat, j: nat, slot: nat)
    requires Distinct(pinned) && n < |pinned| && j < |pinned| && slot == mb * replicas + n
    ensures |HeldBy(Made(pinned, replicas, mb, n + 1), pinned[j])| ==
            |HeldBy(Made(pinned, replicas, mb, n), pinned[j])| + if slot % |pinned| == j then 1 else 0
  {
    var k := (mb, RoundRobin(pinned, slot));
    NextMade(pinned, replicas, mb, n, k);
    OneMoreHeld(Made(pinned, replicas, mb, n), k, pinned[j]);
    SamePlace(pinned, slot, j);
  }

  lemma {:induction false} HeldInTurn(pinned: seq<WorkerId>, replicas: nat, mb: nat, n: nat, j: nat, slots: nat)
    requires Distinct(pinned) && n <= replicas <= |pinned| && j < |pinned| && slots == mb * replicas + n
    ensures |HeldBy(Made(pinned, replicas, mb, n), pinned[j])| == |Turns(slots, |pinned|, j)|
    decreases mb, n
  {
    if n > 0 {
      HeldInTurn(pinned, replicas, mb, n - 1, j, slots - 1);
      NextHeld(pinned, replicas, mb, n - 1, j, slots - 1);
      OneMoreTurn(slots - 1, |pinned|, j);
    } else if mb > 0 {
      AddProduct(mb, replicas, (mb - 1) * replicas);
      HeldInTurn(pinned, replicas, mb - 1, replicas, j, slots);
      assert Made(pinned, replicas, mb, 0) == Made(pinned, replicas, mb - 1, replicas);
    } else {
      assert HeldBy(Made(pinned, replicas, 0, 0), pinned[j]) == {};
      NoTurns(|pinned|, j);
    }
  }

  /**
   With no more replicas than workers, two workers of a block never differ by more than one delta: counting the
   slots on from microbatch to microbatch shares the inner steps out evenly.
   */
  lemma InnerBalanced(pinned: seq<WorkerId>, replicas: nat, mbs: nat, j: nat, k: nat)
    requires Distinct(pinned) && replicas <= |pinned| && j < |pinned| && k < |pinned|
    ensures var keys := DeltaKeys(pinned, replicas, mbs);
            |HeldBy(keys, pinned[j])| <= |HeldBy(keys, pinned[k])| + 1
  {
    var p, keys := |pinned|, DeltaKeys(pinned, replicas, mbs);
    assert Made(pinned, replicas, mbs, 0) == keys;
    HeldInTurn(pinned, replicas, mbs, 0, j, mbs * replicas);
    HeldInTurn(pinned, replicas, mbs, 0, k, mbs * replicas);
    TurnsDiffer(mbs * replicas, p, j, k, (mbs * replicas) % p);
  }

  // ------------------------------------------------------------------------
  // Blocks that nobody asks for
  // ------------------------------------------------------------------------

  /** The workers listed before `i` that ask for no block there is. */
  function FreeBefore(ws: seq<Info>, n: nat, i: nat): set<nat>
    requires i <= |ws|
  {
    set k: nat | k < i && !NamesAny(ws[k], n)
  }

  lemma FreeGrows(ws: seq<Info>, n: nat, i: nat)
    requires i < |ws|
    ensures |FreeBefore(ws, n, i + 1)| == |FreeBefore(ws, n, i)| + if NamesAny(ws[i], n) then 0 else 1
  {
    assert FreeBefore(ws, n, i + 1) == FreeBefore(ws, n, i) + if NamesAny(ws[i], n) then {} else {i};
  }

  lemma FreePrefix(ws: seq<Info>, n: nat, m: nat, i: nat)
    requires i <= m <= |ws|
    ensures FreeBefore(ws[..m], n, i) == FreeBefore(ws, n, i)
  {
  }

  lemma {:induction false} FreeCount(ws: seq<Info>, n: nat)
    ensures |Unpinned(ws, n)| == |FreeBefore(ws, n, |ws|)|
    decreases |ws|
  {
    if ws != [] {
      var m := |ws| - 1;
      FreeCount(ws[..m], n);
      FreePrefix(ws, n, m, m);
      FreeGrows(ws, n, m);
    }
  }

  /** A free worker stands in the list of free workers behind those listed before it. */
  lemma {:induction false} FreeAt(ws: seq<Info>, n: nat, i: nat)
    requires i < |ws| && !NamesAny(ws[i], n)
    ensures var j := |FreeBefore(ws, n, i)|; j < |Unpinned(ws, n)| && Unpinned(ws, n)[j] == ws[i].id
    decreases |ws|
  {
    var m := |ws| - 1;
    FreePrefix(ws, n, m, i);
    if i < m {
      FreeAt(ws[..m], n, i);
    } else {
      FreeCount(ws[..m], n);
    }
  }

  /** Nobody asks for the block and somebody is free. */
  ghost predicate FallsBack(ws: seq<Info>, n: nat, ub: nat)
  {
    (forall w :: w in ws ==> !Names(w, ub)) && exists i :: 0 <= i < |ws| && !NamesAny(ws[i], n)
  }

  lemma FallbackRotates(ws: seq<Info>, n: nat, cost: WorkerId -> real, ub: nat)
    requires FallsBack(ws, n, ub)
    ensures Unpinned(ws, n) != [] && Pinned(ws, n, cost, ub) == Rotated(Unpinned(ws, n), ub)
  {
    NobodyNamed(ws, ub);
    var i :| 0 <= i < |ws| && !NamesAny(ws[i], n);
    FreeAt(ws, n, i);
  }

  lemma RotatedAt<T>(s: seq<T>, shift: nat, j: nat, k: nat)
    requires j < |s| && (shift + j) % |s| == k
    ensures Rotated(s, shift)[j] == s[k]
  {
  }

  lemma RotatedApart<T>(s: seq<T>, u: nat, v: nat)
    requires Distinct(s) && u < v < u + |s|
    ensures Rotated(s, u)[..1] != Rotated(s, v)[..1]
  {
    if u % |s| == v % |s| {
      ModUnique(u, v, |s|);
    }
    RotatedAt(s, u, 0, u % |s|);
    RotatedAt(s, v, 0, v % |s|);
  }

  /**
   The list of a block that falls back: place `j` holds the free worker whose number, in order of listing, is
   ub + j, counted round.
   */
  lemma FallbackList(ws: seq<Info>, n: nat, cost: WorkerId -> real, ub: nat, i: nat, j: nat)
    requires FallsBack(ws, n, ub) && i < |ws| && !NamesAny(ws[i], n)
    ensures var count := |FreeBefore(ws, n, |ws|)|;
            && |Pinned(ws, n, cost, ub)| == count > 0
            && (j < count && (ub + j) % count == |FreeBefore(ws, n, i)| ==> Pinned(ws, n, cost, ub)[j] == ws[i].id)
  {
    FallbackRotates(ws, n, cost, ub);
    FreeCount(ws, n);
    FreeAt(ws, n, i);
    if j < |Unpinned(ws, n)| && (ub + j) % |Unpinned(ws, n)| == |FreeBefore(ws, n, i)| {
      RotatedAt(Unpinned(ws, n), ub, j, |FreeBefore(ws, n, i)|);
    }
  }

  /** Blocks that fall back, less than the number of free workers apart, start their lists at different workers. */
  lemma FallbackSpreads(ws: seq<Info>, n: nat, cost: WorkerId -> real, u: nat, v: nat)
    requires FallsBack(ws, n, u) && FallsBack(ws, n, v) && Distinct(Unpinned(ws, n))
    requires u < v < u + |Unpinned(ws, n)|
    ensures Pinned(ws, n, cost, u)[..1] != Pinned(ws, n, cost, v)[..1]
  {
    FallbackRotates(ws, n, cost, u);
    FallbackRotates(ws, n, cost, v);
    RotatedApart(Unpinned(ws, n), u, v);
  }
}
