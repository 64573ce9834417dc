/** Summing up the ledger: the latest verdict of each receipt, each worker's row, and the totals. */
module LedgerSummary {
  import opened Common
  import opened Ledger
  import opened LedgerShares

  // ------------------------------------------------------------------------
  // The latest verdicts
  // ------------------------------------------------------------------------

  function Later(m: map<Id, Verdict>, v: Verdict): map<Id, Verdict>
  {
    if v.receiptId !in m || v.checked > m[v.receiptId].checked then m[v.receiptId := v] else m
  }

  function Latest(vs: seq<Verdict>): map<Id, Verdict>
  {
    if vs == [] then map[] else Later(Latest(vs[..|vs| - 1]), vs[|vs| - 1])
  }

  /** A receipt's entry is one of its verdicts, and none of them was made later. */
  lemma {:induction false} LatestIsLast(vs: seq<Verdict>, id: Id)
    ensures id in Latest(vs) <==> exists i :: 0 <= i < |vs| && vs[i].receiptId == id
    ensures id in Latest(vs) ==> Latest(vs)[id] in vs && Latest(vs)[id].receiptId == id
    ensures forall i :: 0 <= i < |vs| && vs[i].receiptId == id ==>
            id in Latest(vs) && vs[i].checked <= Latest(vs)[id].checked
    decreases |vs|
  {
    if vs != [] {
      var n := |vs| - 1;
      LatestIsLast(vs[..n], id);
      LatestIsLast(vs[..n], vs[n].receiptId);
      assert vs == vs[..n] + [vs[n]];
    }
  }

  /** Among the latest verdicts of a receipt the first one listed is its entry. */
  lemma {:induction false} LatestIsFirst(vs: seq<Verdict>, id: Id) returns (i: nat)
    requires id in Latest(vs)
    ensures i < |vs| && vs[i].receiptId == id && Latest(vs)[id] == vs[i]
    ensures forall j :: 0 <= j < i && vs[j].receiptId == id ==> vs[j].checked < vs[i].checked
    ensures forall j :: i <= j < |vs| && vs[j].receiptId == id ==> vs[j].checked <= vs[i].checked
    decreases |vs|
  {
    var n := |vs| - 1;
    LatestIsLast(vs[..n], id);
    if id in Latest(vs[..n]) && (vs[n].receiptId != id || vs[n].checked <= Latest(vs[..n])[id].checked) {
      i := LatestIsFirst(vs[..n], id);
    } else {
      i := n;
    }
  }

  /** No receipt has two different verdicts of the same time. */
  predicate DistinctTimes(vs: seq<Verdict>)
  {
    forall i, j :: 0 <= i < |vs| && 0 <= j < |vs| ==>
      vs[i].receiptId == vs[j].receiptId && vs[i].checked == vs[j].checked ==> vs[i] == vs[j]
  }

  /** With distinct check times the chosen verdicts do not depend on the order of listing. */
  lemma LatestIgnoresOrder(a: seq<Verdict>, b: seq<Verdict>)
    requires (forall v :: v in a <==> v in b) && DistinctTimes(a)
    ensures Latest(a) == Latest(b)
  {
    forall id: Id ensures id in Latest(a) <==> id in Latest(b)
      ensures id in Latest(a) && id in Latest(b) ==> Latest(a)[id] == Latest(b)[id]
    {
      LatestIsLast(a, id);
      LatestIsLast(b, id);
      if i :| 0 <= i < |a| && a[i].receiptId == id {
        assert a[i] in b;
      }
      if i :| 0 <= i < |b| && b[i].receiptId == id {
        assert b[i] in a;
      }
      if id in Latest(a) && id in Latest(b) {
        SameLatest(a, b, Latest(a)[id], Latest(b)[id]);
      }
    }
  }

  lemma SameLatest(a: seq<Verdict>, b: seq<Verdict>, x: Verdict, y: Verdict)
    requires (forall v :: v in a <==> v in b) && DistinctTimes(a) && x in a && y in b && x.receiptId == y.receiptId
    requires forall i :: 0 <= i < |a| && a[i].receiptId == x.receiptId ==> a[i].checked <= x.checked
    requires forall i :: 0 <= i < |b| && b[i].receiptId == x.receiptId ==> b[i].checked <= y.checked
    ensures x == y
  {
    assert y in a && x in b;
  }

  // ------------------------------------------------------------------------
  // Rows and totals
  // ------------------------------------------------------------------------

  function ItemOf(latest: map<Id, Verdict>, r: Receipt): Item
  {
    Item(Cu(r), if r.id in latest then Some(latest[r.id].status) else None)
  }

  /** A worker's items in the order of its receipts. */
  function ItemsOf(latest: map<Id, Verdict>, rs: seq<Receipt>, w: Id): seq<Item>
  {
    if rs == [] then []
    else
      var r := rs[|rs| - 1];
      ItemsOf(latest, rs[..|rs| - 1], w) + (if r.worker == w then [ItemOf(latest, r)] else [])
  }

  function Workers(rs: seq<Receipt>): set<Id>
  {
    if rs == [] then {} else Workers(rs[..|rs| - 1]) + {rs[|rs| - 1].worker}
  }

  datatype Row = Row(receipts: nat, tally: Tally, estimated: real, payable: real, trust: real)

  function RowOf(items: seq<Item>): Row
  {
    Row(|items|, TallyOf(items), Estimated(items), Payable(items), Trust(TallyOf(items)))
  }

  function OfWorker(rs: seq<Receipt>, w: Id): set<nat> { set k: nat | k < |rs| && rs[k].worker == w }

  lemma {:induction false} ItemsCounted(latest: map<Id, Verdict>, rs: seq<Receipt>, w: Id)
    ensures |ItemsOf(latest, rs, w)| == |OfWorker(rs, w)|
    decreases |rs|
  {
    if rs != [] {
      var n := |rs| - 1;
      ItemsCounted(latest, rs[..n], w);
      assert OfWorker(rs, w) == OfWorker(rs[..n], w) + if rs[n].worker == w then {n} else {};
    }
  }

  /** A row counts the receipts of its worker. */
  lemma RowCounts(latest: map<Id, Verdict>, rs: seq<Receipt>, w: Id)
    ensures RowOf(ItemsOf(latest, rs, w)).receipts == |OfWorker(rs, w)|
  {
    ItemsCounted(latest, rs, w);
  }

  datatype Summary = Summary(byWorker: map<Id, Row>, estimated: real, payable: real)

  function TrustIn(latest: map<Id, Verdict>, rs: seq<Receipt>, w: Id): real { Trust(TallyOf(ItemsOf(latest, rs, w))) }

  /** What is payable for one receipt, given all receipts. */
  function PaidFor(latest: map<Id, Verdict>, rs: seq<Receipt>, r: Receipt): real
  {
    Pay(ItemOf(latest, r), TrustIn(latest, rs, r.worker))
  }

  function PaidForFn(latest: map<Id, Verdict>, rs: seq<Receipt>): Receipt -> real
  {
    (r: Receipt) => PaidFor(latest, rs, r)
  }

  function CuFn(): Receipt -> real { (r: Receipt) => Cu(r) }

  /** The receipts of one worker only. */
  function SumFor(f: Receipt -> real, rs: seq<Receipt>, w: Id): real
  {
    if rs == [] then 0.0
    else SumFor(f, rs[..|rs| - 1], w) + (if rs[|rs| - 1].worker == w then f(rs[|rs| - 1]) else 0.0)
  }

  function SumGroups(f: Receipt -> real, rs: seq<Receipt>, order: seq<Id>): real
  {
    if order == [] then 0.0 else SumGroups(f, rs, order[..|order| - 1]) + SumFor(f, rs, order[|order| - 1])
  }

  lemma {:induction false} GroupsOfNothing(f: Receipt -> real, order: seq<Id>)
    ensures SumGroups(f, [], order) == 0.0
    decreases |order|
  {
    if order != [] {
      GroupsOfNothing(f, order[..|order| - 1]);
    }
  }

  /** One more receipt adds to the group of its worker and to no other. */
  lemma {:induction false} GroupsAdd(f: Receipt -> real, rs: seq<Receipt>, order: seq<Id>)
    requires rs != [] && Distinct(order)
    ensures SumGroups(f, rs, order) ==
            SumGroups(f, rs[..|rs| - 1], order) + (if rs[|rs| - 1].worker in order then f(rs[|rs| - 1]) else 0.0)
    decreases |order|
  {
    if order != [] {
      var n := |order| - 1;
      GroupsAdd(f, rs, order[..n]);
      assert order == order[..n] + [order[n]];
      if rs[|rs| - 1].worker == order[n] {
        assert order[n] !in order[..n];
      }
    }
  }

  /** Summing worker by worker is summing over all receipts. */
  lemma {:induction false} Regroup(f: Receipt -> real, rs: seq<Receipt>, order: seq<Id>)
    requires Distinct(order) && forall i :: 0 <= i < |rs| ==> rs[i].worker in order
    ensures SumGroups(f, rs, order) == Sum(f, rs)
    decreases |rs|
  {
    if rs == [] {
      GroupsOfNothing(f, order);
    } else {
      Regroup(f, rs[..|rs| - 1], order);
      GroupsAdd(f, rs, order);
    }
  }

  lemma {:induction false} PayableIsGroup(latest: map<Id, Verdict>, rs: seq<Receipt>, w: Id, f: Receipt -> real,
                                          trust: real)
    requires forall r: Receipt :: r.worker == w ==> f(r) == Pay(ItemOf(latest, r), trust)
    ensures Sum(PayAt(trust), ItemsOf(latest, rs, w)) == SumFor(f, rs, w)
    decreases |rs|
  {
    if rs != [] {
      var n := |rs| - 1;
      PayableIsGroup(latest, rs[..n], w, f, trust);
      var init := ItemsOf(latest, rs[..n], w);
      if rs[n].worker == w {
        var x := ItemOf(latest, rs[n]);
        assert (init + [x])[..|init|] == init;
        assert PayAt(trust)(x) == Pay(x, trust);
      } else {
        assert init + [] == init;
      }
    }
  }

  lemma RowIsGroup(latest: map<Id, Verdict>, rs: seq<Receipt>, w: Id)
    ensures Payable(ItemsOf(latest, rs, w)) == SumFor(PaidForFn(latest, rs), rs, w)
  {
    var f := PaidForFn(latest, rs);
    forall r: Receipt | r.worker == w ensures f(r) == Pay(ItemOf(latest, r), TrustIn(latest, rs, w)) {
      assert f(r) == PaidFor(latest, rs, r);
    }
    PayableIsGroup(latest, rs, w, f, TrustIn(latest, rs, w));
  }

  // ------------------------------------------------------------------------
  // What a receipt earns
  // ------------------------------------------------------------------------

  /** The receipts of a worker whose verdicts are of one kind. */
  function Verdicts(latest: map<Id, Verdict>, rs: seq<Receipt>, w: Id, kind: Status -> bool): set<nat>
  {
    set k: nat | k < |rs| && rs[k].worker == w && rs[k].id in latest && kind(latest[rs[k].id].status)
  }

  predicate IsPass(s: Status) { s == Pass }

  predicate IsFail(s: Status) { s == Fail }

  predicate IsNeither(s: Status) { s != Pass && s != Fail }

  lemma OneReceiptMore(latest: map<Id, Verdict>, rs: seq<Receipt>, w: Id, kind: Status -> bool)
    requires rs != []
    ensures var n := |rs| - 1;
            |Verdicts(latest, rs, w, kind)| == |Verdicts(latest, rs[..n], w, kind)| +
            (if rs[n].worker == w && rs[n].id in latest && kind(latest[rs[n].id].status) then 1 else 0)
  {
    var n := |rs| - 1;
    var before, after := Verdicts(latest, rs[..n], w, kind), Verdicts(latest, rs, w, kind);
    assert after == before + if n in after then {n} else {};
  }

  lemma TallyMore(latest: map<Id, Verdict>, rs: seq<Receipt>, w: Id)
    requires rs != []
    ensures var n := |rs| - 1;
            var before := TallyOf(ItemsOf(latest, rs[..n], w));
            TallyOf(ItemsOf(latest, rs, w)) ==
            if rs[n].worker == w then Plus(before, One(ItemOf(latest, rs[n]).status)) else before
  {
    var n := |rs| - 1;
    var init, x := ItemsOf(latest, rs[..n], w), ItemOf(latest, rs[n]);
    assert (init + [x])[..|init|] == init && init + [] == init;
  }

  /** The tally of a worker counts its receipts by verdict. */
  lemma {:induction false} WorkerTally(latest: map<Id, Verdict>, rs: seq<Receipt>, w: Id)
    ensures var t := TallyOf(ItemsOf(latest, rs, w));
            && t.passed == |Verdicts(latest, rs, w, IsPass)|
            && t.failed == |Verdicts(latest, rs, w, IsFail)|
            && t.inconclusive == |Verdicts(latest, rs, w, IsNeither)|
    decreases |rs|
  {
    if rs != [] {
      WorkerTally(latest, rs[..|rs| - 1], w);
      TallyMore(latest, rs, w);
      OneReceiptMore(latest, rs, w, IsPass);
      OneReceiptMore(latest, rs, w, IsFail);
      OneReceiptMore(latest, rs, w, IsNeither);
    }
  }

  /** What a receipt is paid, by its own verdict and the numbers of its worker's receipts with each verdict. */
  predicate EarnsIn(latest: map<Id, Verdict>, rs: seq<Receipt>, r: Receipt, paid: real)
  {
    Earns(Item(Cu(r), if r.id in latest then Some(latest[r.id].status) else None),
          |Verdicts(latest, rs, r.worker, IsPass)|, |Verdicts(latest, rs, r.worker, IsFail)|,
          |Verdicts(latest, rs, r.worker, IsNeither)|, paid)
  }

  lemma ReceiptEarns(latest: map<Id, Verdict>, rs: seq<Receipt>, r: Receipt)
    ensures EarnsIn(latest, rs, r, PaidFor(latest, rs, r))
  {
    var t := TallyOf(ItemsOf(latest, rs, r.worker));
    WorkerTally(latest, rs, r.worker);
    MultiplierRate(t, ItemOf(latest, r));
    PaysAtRate(ItemOf(latest, r), t.passed, t.failed, t.inconclusive, Trust(t));
  }

  // ------------------------------------------------------------------------
  // The loops
  // ------------------------------------------------------------------------

  method LatestVerdicts(vs: seq<Verdict>) returns (m: map<Id, Verdict>)
    ensures m == Latest(vs)
  {
    m := map[];
    for i := 0 to |vs|
      invariant m == Latest(vs[..i])
    {
      assert vs[..i + 1][..i] == vs[..i];
      var v := vs[i];
      if v.receiptId !in m || v.checked > m[v.receiptId].checked {
        m := m[v.receiptId := v];
      }
    }
    assert vs[..|vs|] == vs;
  }

  /** The workers with items, each once. */
  ghost predicate Listed(known: set<Id>, order: seq<Id>) { Distinct(order) && forall w :: w in order <==> w in known }

  /** The items of every worker. */
  ghost predicate Grouped(latest: map<Id, Verdict>, rs: seq<Receipt>, items: map<Id, seq<Item>>)
  {
    items.Keys == Workers(rs) && forall w :: w in items ==> items[w] == ItemsOf(latest, rs, w)
  }

  lemma {:induction false} NoItems(latest: map<Id, Verdict>, rs: seq<Receipt>, w: Id)
    requires w !in Workers(rs)
    ensures ItemsOf(latest, rs, w) == []
    decreases |rs|
  {
    if rs != [] {
      NoItems(latest, rs[..|rs| - 1], w);
    }
  }

  lemma ListedStep(known: set<Id>, order: seq<Id>, w: Id)
    requires Listed(known, order)
    ensures Listed(known + {w}, if w in known then order else order + [w])
  {
  }

  function AddItem(items: map<Id, seq<Item>>, w: Id, x: Item): map<Id, seq<Item>>
  {
    items[w := (if w in items then items[w] else []) + [x]]
  }

  /** The items by worker, and the workers in order of first appearance. */
  function GroupItems(latest: map<Id, Verdict>, rs: seq<Receipt>): map<Id, seq<Item>>
  {
    if rs == [] then map[]
    else AddItem(GroupItems(latest, rs[..|rs| - 1]), rs[|rs| - 1].worker, ItemOf(latest, rs[|rs| - 1]))
  }

  function FirstSeen(rs: seq<Receipt>): seq<Id>
  {
    if rs == [] then []
    else
      var order, w := FirstSeen(rs[..|rs| - 1]), rs[|rs| - 1].worker;
      if w in order then order else order + [w]
  }

  lemma ItemsStep(latest: map<Id, Verdict>, rs: seq<Receipt>, items: map<Id, seq<Item>>, v: Id)
    requires rs != [] && Grouped(latest, rs[..|rs| - 1], items)
    ensures ItemsOf(latest, rs, v) ==
            (if v in items then items[v] else []) +
              (if v == rs[|rs| - 1].worker then [ItemOf(latest, rs[|rs| - 1])] else [])
  {
    if v !in items {
      NoItems(latest, rs[..|rs| - 1], v);
    }
  }

  lemma {:induction false} ItemsGrouped(latest: map<Id, Verdict>, rs: seq<Receipt>)
    ensures Grouped(latest, rs, GroupItems(latest, rs))
    decreases |rs|
  {
    if rs != [] {
      var n := |rs| - 1;
      var before, after := GroupItems(latest, rs[..n]), GroupItems(latest, rs);
      ItemsGrouped(latest, rs[..n]);
      forall v | v in after ensures after[v] == ItemsOf(latest, rs, v) {
        ItemsStep(latest, rs, before, v);
      }
    }
  }

  lemma {:induction false} WorkersFirstSeen(rs: seq<Receipt>)
    ensures Listed(Workers(rs), FirstSeen(rs))
    decreases |rs|
  {
    if rs != [] {
      WorkersFirstSeen(rs[..|rs| - 1]);
      ListedStep(Workers(rs[..|rs| - 1]), FirstSeen(rs[..|rs| - 1]), rs[|rs| - 1].worker);
    }
  }

  /** The receipts sorted into items by worker, the workers in order of first appearance, and the total estimate. */
  method Group(latest: map<Id, Verdict>, rs: seq<Receipt>)
    returns (items: map<Id, seq<Item>>, order: seq<Id>, total: real)
    ensures Grouped(latest, rs, items) && Listed(items.Keys, order) && total == Sum(CuFn(), rs)
  {
    items, order, total := map[], [], 0.0;
    for i := 0 to |rs|
      invariant items == GroupItems(latest, rs[..i]) && order == FirstSeen(rs[..i]) && total == Sum(CuFn(), rs[..i])
    {
      assert rs[..i + 1][..i] == rs[..i];
      var r := rs[i];
      if r.worker !in order {
        order := order + [r.worker];
      }
      items := AddItem(items, r.worker, ItemOf(latest, r));
      total := total + Cu(r);
    }
    assert rs[..|rs|] == rs;
    ItemsGrouped(latest, rs);
    WorkersFirstSeen(rs);
  }

  method PayItems(items: seq<Item>, trust: real) returns (paid: real)
    ensures paid == Sum(PayAt(trust), items)
  {
    paid := 0.0;
    for i := 0 to |items|
      invariant paid == Sum(PayAt(trust), items[..i])
    {
      assert items[..i + 1][..i] == items[..i];
      assert PayAt(trust)(items[i]) == Pay(items[i], trust);
      paid := paid + items[i].cu * Multiplier(items[i].status, trust);
    }
    assert items[..|items|] == items;
  }

  method MakeRow(items: seq<Item>) returns (row: Row)
    ensures row == RowOf(items)
  {
    var tally := TallyOf(items);
    var paid := PayItems(items, Trust(tally));
    row := Row(|items|, tally, Estimated(items), paid, Trust(tally));
  }

  lemma OneMoreGroup(f: Receipt -> real, rs: seq<Receipt>, order: seq<Id>, i: nat)
    requires i < |order|
    ensures SumGroups(f, rs, order[..i + 1]) == SumGroups(f, rs, order[..i]) + SumFor(f, rs, order[i])
    ensures forall w :: w in order[..i + 1] <==> w in order[..i] || w == order[i]
  {
    assert order[..i + 1][..i] == order[..i] && order[..i + 1] == order[..i] + [order[i]];
  }

  /** The rows of all workers and the sum of what is payable to them. */
  method MakeRows(latest: map<Id, Verdict>, rs: seq<Receipt>, items: map<Id, seq<Item>>, order: seq<Id>)
    returns (byWorker: map<Id, Row>, payable: real)
    requires forall i :: 0 <= i < |order| ==> order[i] in items && items[order[i]] == ItemsOf(latest, rs, order[i])
    ensures forall w :: w in byWorker <==> w in order
    ensures forall w :: w in byWorker ==> byWorker[w] == RowOf(ItemsOf(latest, rs, w))
    ensures payable == SumGroups(PaidForFn(latest, rs), rs, order)
  {
    byWorker, payable := map[], 0.0;
    for i := 0 to |order|
      invariant forall w :: w in byWorker <==> w in order[..i]
      invariant forall w :: w in byWorker ==> byWorker[w] == RowOf(ItemsOf(latest, rs, w))
      invariant payable == SumGroups(PaidForFn(latest, rs), rs, order[..i])
    {
      var w := order[i];
      var row := MakeRow(items[w]);
      RowIsGroup(latest, rs, w);
      OneMoreGroup(PaidForFn(latest, rs), rs, order, i);
      byWorker := byWorker[w := row];
      payable := payable + row.payable;
    }
    assert order[..|order|] == order;
  }

  /** One entry of the rows, added up over the workers in some order. */
  function SumRows(f: Row -> real, rows: map<Id, Row>, order: seq<Id>): real
    requires forall w :: w in order ==> w in rows
  {
    if order == [] then 0.0
    else SumRows(f, rows, order[..|order| - 1]) + f(rows[order[|order| - 1]])
  }

  function EstimateIn(): Row -> real { (row: Row) => row.estimated }

  function PayableIn(): Row -> real { (row: Row) => row.payable }

  /** The rows add up to the totals, in whatever order the workers are listed. */
  ghost predicate AddsUp(s: Summary)
  {
    forall order {:trigger Listed(s.byWorker.Keys, order)} :: Listed(s.byWorker.Keys, order) ==>
      SumRows(EstimateIn(), s.byWorker, order) == s.estimated && SumRows(PayableIn(), s.byWorker, order) == s.payable
  }

  lemma {:induction false} EstimateIsGroup(latest: map<Id, Verdict>, rs: seq<Receipt>, w: Id)
    ensures Estimated(ItemsOf(latest, rs, w)) == SumFor(CuFn(), rs, w)
    decreases |rs|
  {
    if rs != [] {
      var n := |rs| - 1;
      EstimateIsGroup(latest, rs[..n], w);
      var init := ItemsOf(latest, rs[..n], w);
      if rs[n].worker == w {
        var x := ItemOf(latest, rs[n]);
        assert (init + [x])[..|init|] == init;
        assert CuOf()(x) == CuFn()(rs[n]);
      } else {
        assert init + [] == init;
      }
    }
  }

  lemma {:induction false} RowsAreGroups(latest: map<Id, Verdict>, rs: seq<Receipt>, rows: map<Id, Row>, order: seq<Id>)
    requires forall w :: w in order ==> w in rows && rows[w] == RowOf(ItemsOf(latest, rs, w))
    ensures SumRows(EstimateIn(), rows, order) == SumGroups(CuFn(), rs, order)
    ensures SumRows(PayableIn(), rows, order) == SumGroups(PaidForFn(latest, rs), rs, order)
    decreases |order|
  {
    if order != [] {
      var n := |order| - 1;
      RowsAreGroups(latest, rs, rows, order[..n]);
      EstimateIsGroup(latest, rs, order[n]);
      RowIsGroup(latest, rs, order[n]);
    }
  }

  lemma RowsAddUp(latest: map<Id, Verdict>, rs: seq<Receipt>, s: Summary)
    requires s.byWorker.Keys == Workers(rs)
    requires forall w :: w in s.byWorker ==> s.byWorker[w] == RowOf(ItemsOf(latest, rs, w))
    requires s.estimated == Sum(CuFn(), rs) && s.payable == Sum(PaidForFn(latest, rs), rs)
    ensures AddsUp(s)
  {
    WorkersListed(rs);
    forall order | Listed(s.byWorker.Keys, order)
      ensures SumRows(EstimateIn(), s.byWorker, order) == s.estimated
      ensures SumRows(PayableIn(), s.byWorker, order) == s.payable
    {
      RowsAreGroups(latest, rs, s.byWorker, order);
      Regroup(CuFn(), rs, order);
      Regroup(PaidForFn(latest, rs), rs, order);
    }
  }

  lemma AllEarn(latest: map<Id, Verdict>, rs: seq<Receipt>)
    ensures forall i :: 0 <= i < |rs| ==> EarnsIn(latest, rs, rs[i], PaidForFn(latest, rs)(rs[i]))
  {
    forall i | 0 <= i < |rs| ensures EarnsIn(latest, rs, rs[i], PaidForFn(latest, rs)(rs[i])) {
      ReceiptEarns(latest, rs, rs[i]);
    }
  }

  /**
   Every worker's row is made of its own receipts alone, the totals are sums over all receipts (the
   estimate of their compute units, and what each earns by the verdicts of its worker), and the rows add up to
   them.
   */
  method Summarize(rs: seq<Receipt>, vs: seq<Verdict>) returns (s: Summary)
    ensures s.byWorker.Keys == Workers(rs)
    ensures forall w :: w in s.byWorker ==> s.byWorker[w] == RowOf(ItemsOf(Latest(vs), rs, w))
    ensures s.estimated == Sum(CuFn(), rs) && s.payable == Sum(PaidForFn(Latest(vs), rs), rs)
    ensures forall i :: 0 <= i < |rs| ==> EarnsIn(Latest(vs), rs, rs[i], PaidForFn(Latest(vs), rs)(rs[i]))
    ensures AddsUp(s)
  {
    var latest := LatestVerdicts(vs);
    var items, order, total := Group(latest, rs);
    var byWorker, payable := MakeRows(latest, rs, items, order);
    WorkersListed(rs);
    Regroup(PaidForFn(latest, rs), rs, order);
    s := Summary(byWorker, total, payable);
    RowsAddUp(latest, rs, s);
    AllEarn(latest, rs);
  }

  lemma {:induction false} WorkersListed(rs: seq<Receipt>)
    ensures forall i :: 0 <= i < |rs| ==> rs[i].worker in Workers(rs)
    decreases |rs|
  {
    if rs != [] {
      WorkersListed(rs[..|rs| - 1]);
    }
  }

  // ------------------------------------------------------------------------
  // Totals
  // ------------------------------------------------------------------------

  predicate NonNegativeClaims(rs: seq<Receipt>)
  {
    forall i :: 0 <= i < |rs| ==> rs[i].computeSec >= 0.0 && rs[i].bytesRead >= 0 && rs[i].bytesWritten >= 0
  }

  lemma ReceiptBounded(latest: map<Id, Verdict>, rs: seq<Receipt>, r: Receipt)
    requires r.computeSec >= 0.0 && r.bytesRead >= 0 && r.bytesWritten >= 0
    ensures 0.0 <= PaidFor(latest, rs, r) <= Cu(r)
    ensures ItemOf(latest, r).status == Some(Fail) ==> PaidFor(latest, rs, r) == 0.0
  {
    var trust := TrustIn(latest, rs, r.worker);
    TrustBounded(TallyOf(ItemsOf(latest, rs, r.worker)));
    CuNonNegative(r);
    PayBounded(ItemOf(latest, r), trust);
    if ItemOf(latest, r).status == Some(Fail) {
      Nothing(Cu(r), Multiplier(Some(Fail), trust));
    }
  }

  /** For non-negative claims the total payable lies between nothing and the total estimate. */
  lemma TotalBounded(latest: map<Id, Verdict>, rs: seq<Receipt>)
    requires NonNegativeClaims(rs)
    ensures 0.0 <= Sum(PaidForFn(latest, rs), rs) <= Sum(CuFn(), rs)
  {
    var f, cu := PaidForFn(latest, rs), CuFn();
    forall i | 0 <= i < |rs| ensures 0.0 <= f(rs[i]) <= cu(rs[i]) {
      assert f(rs[i]) == PaidFor(latest, rs, rs[i]);
      ReceiptBounded(latest, rs, rs[i]);
    }
    SumNonNegative(f, rs);
    SumOrder(f, rs, cu, rs);
  }

  lemma CuNonNegative(r: Receipt)
    requires r.computeSec >= 0.0 && r.bytesRead >= 0 && r.bytesWritten >= 0
    ensures Cu(r) >= 0.0
  {
  }

  // ------------------------------------------------------------------------
  // Who is paid all
  // ------------------------------------------------------------------------

  /** A worker without verdicts other than passes is paid the seconds and bytes it claims. */
  lemma PassedPaid(latest: map<Id, Verdict>, rs: seq<Receipt>, w: Id)
    requires AllPass(latest, rs, w)
    ensures RowOf(ItemsOf(latest, rs, w)).payable == SumFor(CuFn(), rs, w)
    ensures RowOf(ItemsOf(latest, rs, w)).trust == 1.0
  {
    var items := ItemsOf(latest, rs, w);
    AllPassItems(latest, rs, w);
    PassesPayAll(items);
    WholeTrust(items);
    EstimateIsGroup(latest, rs, w);
  }

  lemma {:induction false} OwnItem(latest: map<Id, Verdict>, rs: seq<Receipt>, k: nat)
    requires k < |rs|
    ensures ItemOf(latest, rs[k]) in ItemsOf(latest, rs, rs[k].worker)
    decreases |rs|
  {
    if k < |rs| - 1 {
      OwnItem(latest, rs[..|rs| - 1], k);
    }
  }

  /** Every verdict there is on a worker's receipts is a pass. */
  predicate AllPass(latest: map<Id, Verdict>, rs: seq<Receipt>, w: Id)
  {
    forall k :: 0 <= k < |rs| && rs[k].worker == w && rs[k].id in latest ==> latest[rs[k].id].status == Pass
  }

  lemma {:induction false} AllPassItems(latest: map<Id, Verdict>, rs: seq<Receipt>, w: Id)
    ensures AllPass(latest, rs, w) <==> OnlyPasses(ItemsOf(latest, rs, w))
    decreases |rs|
  {
    if rs != [] {
      var n := |rs| - 1;
      AllPassItems(latest, rs[..n], w);
      var init, items := ItemsOf(latest, rs[..n], w), ItemsOf(latest, rs, w);
      assert forall k :: 0 <= k < n ==> rs[..n][k] == rs[k];
      assert forall j :: 0 <= j < |init| ==> items[j] == init[j];
      if rs[n].worker == w {
        assert items[|init|] == ItemOf(latest, rs[n]);
      }
    }
  }

  /** A receipt of a worker that has only passes, or one that claims nothing. */
  predicate Unreduced(latest: map<Id, Verdict>, rs: seq<Receipt>, r: Receipt)
  {
    AllPass(latest, rs, r.worker) || Cu(r) == 0.0
  }

  lemma ReceiptReduced(latest: map<Id, Verdict>, rs: seq<Receipt>, k: nat)
    requires k < |rs| && Cu(rs[k]) >= 0.0
    ensures Unreduced(latest, rs, rs[k]) ==> PaidFor(latest, rs, rs[k]) == Cu(rs[k])
    ensures !Unreduced(latest, rs, rs[k]) ==> PaidFor(latest, rs, rs[k]) < Cu(rs[k])
  {
    var x, items := ItemOf(latest, rs[k]), ItemsOf(latest, rs, rs[k].worker);
    var trust := Trust(TallyOf(items));
    OwnItem(latest, rs, k);
    AllPassItems(latest, rs, rs[k].worker);
    WholeTrust(items);
    TrustBounded(TallyOf(items));
    PayBounded(x, trust);
    if OnlyPasses(items) {
      PaidFull(x);
    } else if x.cu > 0.0 {
      PaidLess(x, trust);
    }
  }

  /** The total payable is the total estimate exactly when each receipt with a claim is of a worker with passes only. */
  lemma TotalPaidIff(latest: map<Id, Verdict>, rs: seq<Receipt>)
    requires NonNegativeClaims(rs)
    ensures Sum(PaidForFn(latest, rs), rs) == Sum(CuFn(), rs) <==>
            forall i :: 0 <= i < |rs| ==> Unreduced(latest, rs, rs[i])
  {
    var f, cu := PaidForFn(latest, rs), CuFn();
    forall i | 0 <= i < |rs|
      ensures f(rs[i]) <= cu(rs[i]) && (f(rs[i]) == cu(rs[i]) <==> Unreduced(latest, rs, rs[i]))
    {
      CuNonNegative(rs[i]);
      assert f(rs[i]) == PaidFor(latest, rs, rs[i]);
      ReceiptReduced(latest, rs, i);
    }
    if i :| 0 <= i < |rs| && !Unreduced(latest, rs, rs[i]) {
      SumLess(f, cu, rs, i);
    } else {
      SumSame(f, cu, rs);
    }
  }
}
