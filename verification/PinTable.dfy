/** Which workers serve which unique block. */
module PinTable {
  import opened Common
  import opened Modulo
  import opened Sorting

  type WorkerId(==, !new)

  /** A live worker and the blocks it asks to keep resident, if it asks for any. */
  datatype Info = Info(id: WorkerId, wanted: Option<seq<int>>)

  predicate InRange(ub: int, n: nat) { 0 <= ub < n }

  /** How often the worker asks for the block. */
  function Asks(wants: seq<int>, ub: nat, id: WorkerId): seq<WorkerId>
  {
    if wants == [] then []
    else Asks(wants[..|wants| - 1], ub, id) + (if wants[|wants| - 1] == ub then [id] else [])
  }

  function WantsOf(w: Info): seq<int> { if w.wanted.None? then [] else w.wanted.value }

  predicate Names(w: Info, ub: int) { ub in WantsOf(w) }

  predicate NamesAny(w: Info, n: nat) { exists i :: 0 <= i < |WantsOf(w)| && InRange(WantsOf(w)[i], n) }

  /** The workers that ask for the block, in order of listing. */
  function Named(ws: seq<Info>, ub: nat): seq<WorkerId>
  {
    if ws == [] then [] else Named(ws[..|ws| - 1], ub) + Asks(WantsOf(ws[|ws| - 1]), ub, ws[|ws| - 1].id)
  }

  /** The workers that ask for no block there is. */
  function Unpinned(ws: seq<Info>, n: nat): seq<WorkerId>
  {
    if ws == [] then []
    else Unpinned(ws[..|ws| - 1], n) + (if NamesAny(ws[|ws| - 1], n) then [] else [ws[|ws| - 1].id])
  }

  function Rotated<T>(s: seq<T>, shift: nat): (r: seq<T>)
    ensures |r| == |s|
  {
    seq(|s|, j requires 0 <= j < |s| => s[(shift + j) % |s|])
  }

  /** Cheaper workers first. */
  function ByCost(cost: WorkerId -> real): (WorkerId, WorkerId) -> bool
  {
    (a: WorkerId, b: WorkerId) => cost(a) <= cost(b)
  }

  /**
   The list of one block: those that ask for it by cost, or the unpinned workers starting from a different one
   for each block.
   */
  function Pinned(ws: seq<Info>, n: nat, cost: WorkerId -> real, ub: nat): seq<WorkerId>
  {
    if Named(ws, ub) == [] && Unpinned(ws, n) != [] then Rotated(Unpinned(ws, n), ub)
    else Sort(Named(ws, ub), ByCost(cost))
  }

  /** Collecting the requests of one worker. */
  method Attach(pin: seq<seq<WorkerId>>, w: Info, n: nat) returns (pin': seq<seq<WorkerId>>, attached: bool)
    requires |pin| == n
    ensures |pin'| == n && forall ub :: 0 <= ub < n ==> pin'[ub] == pin[ub] + Asks(WantsOf(w), ub, w.id)
    ensures attached <==> NamesAny(w, n)
  {
    pin', attached := pin, false;
    var wants := WantsOf(w);
    for i := 0 to |wants|
      invariant |pin'| == n && forall ub :: 0 <= ub < n ==> pin'[ub] == pin[ub] + Asks(wants[..i], ub, w.id)
      invariant attached <==> exists j :: 0 <= j < i && InRange(wants[j], n)
    {
      assert wants[..i + 1][..i] == wants[..i];
      var ub := wants[i];
      if InRange(ub, n) {
        pin' := pin'[ub := pin'[ub] + [w.id]];
        attached := true;
      }
    }
    assert wants[..|wants|] == wants;
  }

  lemma OneMoreWorker(ws: seq<Info>, n: nat, i: nat)
    requires i < |ws|
    ensures forall ub: nat :: Named(ws[..i + 1], ub) == Named(ws[..i], ub) + Asks(WantsOf(ws[i]), ub, ws[i].id)
    ensures Unpinned(ws[..i + 1], n) == Unpinned(ws[..i], n) + if NamesAny(ws[i], n) then [] else [ws[i].id]
  {
    assert ws[..i + 1][..i] == ws[..i];
  }

  method BuildPinTable(ws: seq<Info>, n: nat, cost: WorkerId -> real) returns (pin: seq<seq<WorkerId>>)
    ensures |pin| == n && forall ub :: 0 <= ub < n ==> pin[ub] == Pinned(ws, n, cost, ub)
  {
    pin := seq(n, ub => []);
    var unpinned: seq<WorkerId> := [];
    for i := 0 to |ws|
      invariant |pin| == n && forall ub :: 0 <= ub < n ==> pin[ub] == Named(ws[..i], ub)
      invariant unpinned == Unpinned(ws[..i], n)
    {
      OneMoreWorker(ws, n, i);
      var attached;
      pin, attached := Attach(pin, ws[i], n);
      if !attached {
        unpinned := unpinned + [ws[i].id];
      }
    }
    assert ws[..|ws|] == ws;
    pin := FillAndSort(ws, n, cost, pin, unpinned);
  }

  /** Lists without an asker get the free workers, the others are put in order. */
  method FillAndSort(ws: seq<Info>, n: nat, cost: WorkerId -> real, named: seq<seq<WorkerId>>, unpinned: seq<WorkerId>)
    returns (pin: seq<seq<WorkerId>>)
    requires |named| == n && unpinned == Unpinned(ws, n)
    requires forall ub :: 0 <= ub < n ==> named[ub] == Named(ws, ub)
    ensures |pin| == n && forall ub :: 0 <= ub < n ==> pin[ub] == Pinned(ws, n, cost, ub)
  {
    pin := named;
    for ub := 0 to n
      invariant |pin| == n
      invariant forall v :: 0 <= v < ub ==> pin[v] == Pinned(ws, n, cost, v)
      invariant forall v :: ub <= v < n ==> pin[v] == named[v]
    {
      if pin[ub] == [] && unpinned != [] {
        pin := pin[ub := Rotated(unpinned, ub)];
      } else {
        pin := pin[ub := Sort(pin[ub], ByCost(cost))];
      }
    }
  }

  // ------------------------------------------------------------------------
  // Who is in a list
  // ------------------------------------------------------------------------

  lemma {:induction false} AsksIff(wants: seq<int>, ub: nat, id: WorkerId, x: WorkerId)
    ensures x in Asks(wants, ub, id) <==> x == id && ub in wants
    decreases |wants|
  {
    if wants != [] {
      AsksIff(wants[..|wants| - 1], ub, id, x);
      assert wants == wants[..|wants| - 1] + [wants[|wants| - 1]];
    }
  }

  predicate SomeoneNames(ws: seq<Info>, ub: nat, x: WorkerId) { exists w :: w in ws && w.id == x && Names(w, ub) }

  predicate SomeoneFree(ws: seq<Info>, n: nat, x: WorkerId) { exists w :: w in ws && w.id == x && !NamesAny(w, n) }

  lemma {:induction false} NamedIff(ws: seq<Info>, ub: nat, x: WorkerId)
    ensures x in Named(ws, ub) <==> SomeoneNames(ws, ub, x)
    decreases |ws|
  {
    if ws != [] {
      var n := |ws| - 1;
      NamedIff(ws[..n], ub, x);
      AsksIff(WantsOf(ws[n]), ub, ws[n].id, x);
      assert ws == ws[..n] + [ws[n]];
      assert forall w :: w in ws <==> w in ws[..n] || w == ws[n];
    }
  }

  lemma {:induction false} UnpinnedIff(ws: seq<Info>, n: nat, x: WorkerId)
    ensures x in Unpinned(ws, n) <==> SomeoneFree(ws, n, x)
    decreases |ws|
  {
    if ws != [] {
      var m := |ws| - 1;
      UnpinnedIff(ws[..m], n, x);
      assert ws == ws[..m] + [ws[m]];
      assert forall w :: w in ws <==> w in ws[..m] || w == ws[m];
    }
  }

  /** Every element is somewhere in the rotated list. */
  lemma RotatedFinds<T>(s: seq<T>, shift: nat, i: nat) returns (j: nat)
    requires i < |s|
    ensures j < |s| && Rotated(s, shift)[j] == s[i]
  {
    var n := |s|;
    var r := shift % n;
    j := if i >= r then i - r else i + n - r;
    RotationIndex(shift, n, i, j);
  }

  lemma RotationIndex(shift: nat, n: nat, i: nat, j: nat)
    requires n >= 1 && i < n && j == (if i >= shift % n then i - shift % n else i + n - shift % n)
    ensures j < n && (shift + j) % n == i
  {
    var q := shift / n;
    assert shift == q * n + shift % n;
    if i >= shift % n {
      Remainder(q, n, i, shift + j);
    } else {
      Remainder(q + 1, n, i, shift + j);
    }
  }

  lemma RotatedMembers<T>(s: seq<T>, shift: nat, x: T)
    ensures x in Rotated(s, shift) <==> x in s
  {
    if x in s {
      var i :| 0 <= i < |s| && s[i] == x;
      var j := RotatedFinds(s, shift, i);
    }
  }

  /**
   A worker is in a block's list if and only if it asks for that block, or nobody does and it
   asks for no block there is. So a worker pinned elsewhere never serves a block it did not ask for.
   */
  lemma PinnedIff(ws: seq<Info>, n: nat, cost: WorkerId -> real, ub: nat, x: WorkerId)
    ensures x in Pinned(ws, n, cost, ub) <==>
      SomeoneNames(ws, ub, x) || ((forall w :: w in ws ==> !Names(w, ub)) && SomeoneFree(ws, n, x))
  {
    var named, free := Named(ws, ub), Unpinned(ws, n);
    NamedIff(ws, ub, x);
    UnpinnedIff(ws, n, x);
    SameMembers(Sort(named, ByCost(cost)), named, x);
    RotatedMembers(free, ub, x);
    NobodyNamed(ws, ub);
  }

  lemma NobodyNamed(ws: seq<Info>, ub: nat)
    ensures Named(ws, ub) == [] <==> forall w :: w in ws ==> !Names(w, ub)
  {
    var named := Named(ws, ub);
    if named == [] {
      forall w | w in ws ensures !Names(w, ub) {
        NamedIff(ws, ub, w.id);
      }
    } else {
      NamedIff(ws, ub, named[0]);
    }
  }

  // ------------------------------------------------------------------------
  // No worker twice
  // ------------------------------------------------------------------------

  predicate DistinctIds(ws: seq<Info>) { forall i, j :: 0 <= i < j < |ws| ==> ws[i].id != ws[j].id }

  lemma RotatedNoDuplicates<T>(s: seq<T>, shift: nat)
    requires Distinct(s)
    ensures Distinct(Rotated(s, shift))
  {
    var r, n := Rotated(s, shift), |s|;
    forall i, j | 0 <= i < j < n ensures r[i] != r[j] {
      var a, b := (shift + i) % n, (shift + j) % n;
      if a == b {
        ModUnique(shift + i, shift + j, n);
      }
      assert s[a] != s[b];
    }
  }

  /** No duplicates, said with multiplicities. */
  lemma {:induction false} NoDuplicatesIff<T(!new)>(s: seq<T>)
    ensures Distinct(s) <==> forall x :: multiset(s)[x] <= 1
    decreases |s|
  {
    if s != [] {
      var n := |s| - 1;
      var init := s[..n];
      NoDuplicatesIff(init);
      assert s == init + [s[n]];
      if Distinct(s) {
        assert Distinct(init);
        assert s[n] !in init;
        assert multiset(init)[s[n]] == 0;
      } else {
        var i, j :| 0 <= i < j < |s| && s[i] == s[j];
        if j == n {
          assert init[i] == s[n];
          assert multiset(init)[s[n]] >= 1 && multiset(s)[s[n]] == multiset(init)[s[n]] + 1;
        } else {
          assert init[i] == init[j];
          var x :| multiset(init)[x] > 1;
          assert multiset(s)[x] >= multiset(init)[x];
        }
      }
    }
  }

  lemma {:induction false} AsksOnce(wants: seq<int>, ub: nat, id: WorkerId)
    requires Distinct(wants)
    ensures |Asks(wants, ub, id)| <= 1
    decreases |wants|
  {
    if wants != [] {
      var n := |wants| - 1;
      AsksOnce(wants[..n], ub, id);
      if wants[n] == ub && Asks(wants[..n], ub, id) != [] {
        AsksIff(wants[..n], ub, id, Asks(wants[..n], ub, id)[0]);
      }
    }
  }

  lemma {:induction false} NamedNoDuplicates(ws: seq<Info>, ub: nat)
    requires DistinctIds(ws) && forall i :: 0 <= i < |ws| ==> Distinct(WantsOf(ws[i]))
    ensures Distinct(Named(ws, ub))
    decreases |ws|
  {
    if ws != [] {
      var n := |ws| - 1;
      NamedNoDuplicates(ws[..n], ub);
      AsksOnce(WantsOf(ws[n]), ub, ws[n].id);
      var init, more := Named(ws[..n], ub), Asks(WantsOf(ws[n]), ub, ws[n].id);
      if more != [] {
        AsksIff(WantsOf(ws[n]), ub, ws[n].id, more[0]);
        NamedIff(ws[..n], ub, ws[n].id);
        assert ws[n].id !in init;
      }
    }
  }

  lemma {:induction false} UnpinnedNoDuplicates(ws: seq<Info>, n: nat)
    requires DistinctIds(ws)
    ensures Distinct(Unpinned(ws, n))
    decreases |ws|
  {
    if ws != [] {
      var m := |ws| - 1;
      UnpinnedNoDuplicates(ws[..m], n);
      UnpinnedIff(ws[..m], n, ws[m].id);
    }
  }

  predicate CheapestFirst(list: seq<WorkerId>, cost: WorkerId -> real)
  {
    forall i, j :: 0 <= i < j < |list| ==> cost(list[i]) <= cost(list[j])
  }

  /**
   No list holds a worker twice when no worker is listed twice and none asks for a block twice; lists of askers
   are in order of cost.
   */
  lemma PinnedNoDuplicates(ws: seq<Info>, n: nat, cost: WorkerId -> real, ub: nat)
    requires DistinctIds(ws) && forall i :: 0 <= i < |ws| ==> Distinct(WantsOf(ws[i]))
    ensures Distinct(Pinned(ws, n, cost, ub))
    ensures (exists w :: w in ws && Names(w, ub)) ==> CheapestFirst(Pinned(ws, n, cost, ub), cost)
  {
    NobodyNamed(ws, ub);
    NamedNoDuplicates(ws, ub);
    UnpinnedNoDuplicates(ws, n);
    RotatedNoDuplicates(Unpinned(ws, n), ub);
    SortSorts(Named(ws, ub), ByCost(cost));
    NoDuplicatesIff(Named(ws, ub));
    NoDuplicatesIff(Sort(Named(ws, ub), ByCost(cost)));
  }
}
