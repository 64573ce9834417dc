/** The replay ledger: trust in workers and the compute units payable to them. */
module Ledger {
  import opened Common

  /** The name of a receipt or a worker. */
  type Id(==, !new)

  datatype Status = Pass | Fail | Inconclusive | Other

  datatype Receipt = Receipt(id: Id, worker: Id, computeSec: real, bytesRead: int, bytesWritten: int)

  datatype Verdict = Verdict(receiptId: Id, status: Status, checked: real)

  /** A receipt's estimated compute units and the status of its latest verdict, if it has one. */
  datatype Item = Item(cu: real, status: Option<Status>)

  datatype Tally = Tally(passed: nat, failed: nat, inconclusive: nat)

  function Cu(r: Receipt): real { r.computeSec + (r.bytesRead + r.bytesWritten) as real / 1000000000.0 }

  function One(s: Option<Status>): Tally
  {
    match s
    case None => Tally(0, 0, 0)
    case Some(Pass) => Tally(1, 0, 0)
    case Some(Fail) => Tally(0, 1, 0)
    case Some(_) => Tally(0, 0, 1)
  }

  function Plus(a: Tally, b: Tally): Tally
  {
    Tally(a.passed + b.passed, a.failed + b.failed, a.inconclusive + b.inconclusive)
  }

  function TallyOf(items: seq<Item>): Tally
  {
    if items == [] then Tally(0, 0, 0) else Plus(TallyOf(items[..|items| - 1]), One(items[|items| - 1].status))
  }

  function AtLeastZero(x: real): real { if x >= 0.0 then x else 0.0 }

  function Trust(t: Tally): real
  {
    var n := (t.passed + t.failed + t.inconclusive) as real;
    if n == 0.0 then 1.0
    else if t.failed > 0 then AtLeastZero((t.passed as real - 2.0 * t.failed as real) / n)
    else AtLeastZero(t.passed as real / n - 0.25 * t.inconclusive as real / n)
  }

  function Multiplier(s: Option<Status>, trust: real): real
  {
    if s == Some(Fail) then 0.0
    else if s == Some(Inconclusive) then (if trust <= 0.5 then trust else 0.5)
    else trust
  }

  function Sum<T>(f: T -> real, s: seq<T>): real
  {
    if s == [] then 0.0 else Sum(f, s[..|s| - 1]) + f(s[|s| - 1])
  }

  function Pay(x: Item, trust: real): real { x.cu * Multiplier(x.status, trust) }

  function PayAt(trust: real): Item -> real { (x: Item) => Pay(x, trust) }

  function CuOf(): Item -> real { (x: Item) => x.cu }

  function Estimated(items: seq<Item>): real { Sum(CuOf(), items) }

  function Payable(items: seq<Item>): real { Sum(PayAt(Trust(TallyOf(items))), items) }

  lemma {:induction false} SumOrder<S, T>(f: S -> real, a: seq<S>, g: T -> real, b: seq<T>)
    requires |a| == |b| && forall i :: 0 <= i < |a| ==> f(a[i]) <= g(b[i])
    ensures Sum(f, a) <= Sum(g, b)
    decreases |a|
  {
    if a != [] {
      SumOrder(f, a[..|a| - 1], g, b[..|b| - 1]);
    }
  }

  lemma {:induction false} SumNonNegative<T>(f: T -> real, a: seq<T>)
    requires forall i :: 0 <= i < |a| ==> f(a[i]) >= 0.0
    ensures Sum(f, a) >= 0.0
    decreases |a|
  {
    if a != [] {
      SumNonNegative(f, a[..|a| - 1]);
    }
  }

  lemma {:induction false} SumZero<T>(f: T -> real, a: seq<T>)
    requires forall i :: 0 <= i < |a| ==> f(a[i]) == 0.0
    ensures Sum(f, a) == 0.0
    decreases |a|
  {
    if a != [] {
      SumZero(f, a[..|a| - 1]);
    }
  }

  // ------------------------------------------------------------------------
  // Bounds
  // ------------------------------------------------------------------------

  lemma QuotientOrder(a: real, b: real, n: real)
    requires a <= b && n > 0.0
    ensures a / n <= b / n
  {
    assert b / n - a / n == (b - a) / n;
  }

  /** Trust as one quotient. */
  function Score(t: Tally): real
  {
    if t.failed > 0 then t.passed as real - 2.0 * t.failed as real else t.passed as real - 0.25 * t.inconclusive as real
  }

  function Checked(t: Tally): nat { t.passed + t.failed + t.inconclusive }

  lemma TrustIsScore(t: Tally)
    requires Checked(t) > 0
    ensures Trust(t) == AtLeastZero(Score(t) / Checked(t) as real)
  {
    var n := Checked(t) as real;
    if t.failed == 0 {
      assert t.passed as real / n - 0.25 * t.inconclusive as real / n == Score(t) / n;
    }
  }

  lemma AtMostOne(a: real, n: real)
    requires a <= n && n > 0.0
    ensures a / n <= 1.0
  {
    QuotientOrder(a, n, n);
  }

  lemma BelowOne(a: real, n: real)
    requires n > 0.0 && a < n
    ensures a / n < 1.0
  {
    assert n / n == 1.0;
    assert n / n - a / n == (n - a) / n;
    assert (n - a) / n > 0.0;
  }

  lemma NoneDeducted(t: Tally)
    requires Checked(t) > 0
    ensures Score(t) == Checked(t) as real <==> t.failed == 0 && t.inconclusive == 0
    ensures Score(t) <= Checked(t) as real
  {
  }

  /** Trust lies between nothing and one, and is one exactly when no verdict is other than a pass. */
  lemma TrustBounded(t: Tally)
    ensures 0.0 <= Trust(t) <= 1.0
    ensures Trust(t) == 1.0 <==> t.failed == 0 && t.inconclusive == 0
  {
    if Checked(t) > 0 {
      var n := Checked(t) as real;
      TrustIsScore(t);
      NoneDeducted(t);
      AtMostOne(Score(t), n);
      if Score(t) < n {
        BelowOne(Score(t), n);
      }
    }
  }

  /** A worker with a failure and at most two passes for each failure is trusted with nothing. */
  lemma TrustLost(t: Tally)
    requires t.failed >= 1 && t.passed <= 2 * t.failed
    ensures Trust(t) == 0.0
  {
    TrustIsScore(t);
    QuotientOrder(Score(t), 0.0, Checked(t) as real);
  }

  predicate NonNegative(items: seq<Item>) { forall i :: 0 <= i < |items| ==> items[i].cu >= 0.0 }

  lemma Share(cu: real, m: real)
    requires cu >= 0.0 && 0.0 <= m <= 1.0
    ensures 0.0 <= cu * m <= cu
  {
    assert cu * (1.0 - m) >= 0.0;
  }

  lemma PayBounded(x: Item, trust: real)
    requires x.cu >= 0.0 && 0.0 <= trust <= 1.0
    ensures 0.0 <= Pay(x, trust) <= x.cu && (trust == 0.0 ==> Pay(x, trust) == 0.0)
  {
    var m := Multiplier(x.status, trust);
    Share(x.cu, m);
    if trust == 0.0 {
      Nothing(x.cu, m);
    }
  }

  lemma Nothing(cu: real, m: real)
    requires m == 0.0
    ensures cu * m == 0.0
  {
  }

  /** What is payable lies between nothing and the estimate, and is nothing once trust is lost. */
  lemma PayableBounded(items: seq<Item>)
    requires NonNegative(items)
    ensures 0.0 <= Payable(items) <= Estimated(items)
    ensures var t := TallyOf(items); t.failed >= 1 && t.passed <= 2 * t.failed ==> Payable(items) == 0.0
  {
    var t := TallyOf(items);
    var trust := Trust(t);
    TrustBounded(t);
    var pay, cu := PayAt(trust), CuOf();
    forall i | 0 <= i < |items|
      ensures 0.0 <= pay(items[i]) <= cu(items[i]) && (trust == 0.0 ==> pay(items[i]) == 0.0)
    {
      PayBounded(items[i], trust);
    }
    SumNonNegative(pay, items);
    SumOrder(pay, items, cu, items);
    if t.failed >= 1 && t.passed <= 2 * t.failed {
      TrustLost(t);
      SumZero(pay, items);
    }
  }

  // ------------------------------------------------------------------------
  // Changing one verdict
  // ------------------------------------------------------------------------

  lemma {:induction false} TallyUpdate(items: seq<Item>, j: nat, x: Item)
    requires j < |items|
    ensures Plus(TallyOf(items[j := x]), One(items[j].status)) == Plus(TallyOf(items), One(x.status))
    decreases |items|
  {
    var n := |items| - 1;
    if j < n {
      TallyUpdate(items[..n], j, x);
      assert items[j := x][..n] == items[..n][j := x];
    } else {
      assert items[j := x][..n] == items[..n];
    }
  }

  lemma MultiplierMonotone(s: Option<Status>, a: real, b: real)
    requires 0.0 <= a <= b
    ensures 0.0 <= Multiplier(s, a) <= Multiplier(s, b)
  {
  }

  lemma PayOrder(x: Item, s: real, y: Item, t: real)
    requires x.cu == y.cu >= 0.0 && Multiplier(x.status, s) <= Multiplier(y.status, t)
    ensures Pay(x, s) <= Pay(y, t)
  {
    assert x.cu * (Multiplier(y.status, t) - Multiplier(x.status, s)) >= 0.0;
  }

  /** If no multiplier grows, neither does what is paid. */
  lemma PaidOrder(a: seq<Item>, s: real, b: seq<Item>, t: real)
    requires NonNegative(a) && |a| == |b|
    requires forall i :: 0 <= i < |a| ==> a[i].cu == b[i].cu && Multiplier(a[i].status, s) <= Multiplier(b[i].status, t)
    ensures Sum(PayAt(s), a) <= Sum(PayAt(t), b)
  {
    var f, g := PayAt(s), PayAt(t);
    forall i | 0 <= i < |a| ensures f(a[i]) <= g(b[i]) {
      PayOrder(a[i], s, b[i], t);
    }
    SumOrder(f, a, g, b);
  }

  lemma TrustOrder(a: Tally, b: Tally)
    requires Checked(a) == Checked(b) > 0 && Score(a) <= Score(b)
    ensures Trust(a) <= Trust(b)
  {
    TrustIsScore(a);
    TrustIsScore(b);
    QuotientOrder(Score(a), Score(b), Checked(a) as real);
  }

  lemma StrictQuotient(a: real, b: real, n: real)
    requires n > 0.0 && a > 0.0 && a > b
    ensures AtLeastZero(a / n) > AtLeastZero(b / n)
  {
    assert a / n - b / n == (a - b) / n;
    assert (a - b) / n > 0.0 && a / n > 0.0;
  }

  /** The guard of the two trust formulas that a first failure switches between, read as a comparison of the two. */
  predicate FailureRaisesTrust(t: Tally) { t.failed == 0 && t.inconclusive > 12 && t.passed > 3 }

  /**
   One pass turned into a failure raises trust exactly when it is the first failure, more than twelve verdicts
   are inconclusive and more than three pass.
   */
  lemma PassToFailTrust(t: Tally)
    requires t.passed >= 1
    ensures Trust(ToFail(t)) > Trust(t) <==> FailureRaisesTrust(t)
  {
    var u := ToFail(t);
    TrustIsScore(t);
    TrustIsScore(u);
    if FailureRaisesTrust(t) {
      StrictQuotient(Score(u), Score(t), Checked(t) as real);
    } else if t.failed == 0 && t.passed <= 3 {
      QuotientOrder(Score(u), 0.0, Checked(t) as real);
    } else {
      TrustOrder(u, t);
    }
  }

  function Judged(items: seq<Item>, j: nat, status: Status): (r: seq<Item>)
    requires j < |items|
    ensures |r| == |items|
  {
    items[j := items[j].(status := Some(status))]
  }

  lemma MultipliersOrder(items: seq<Item>, j: nat, status: Status, s: real, t: real)
    requires j < |items| && 0.0 <= s <= t && Multiplier(Some(status), s) <= Multiplier(items[j].status, t)
    ensures var a := Judged(items, j, status);
            forall i :: 0 <= i < |items| ==>
              a[i].cu == items[i].cu && Multiplier(a[i].status, s) <= Multiplier(items[i].status, t)
  {
    var a := Judged(items, j, status);
    forall i | 0 <= i < |items| ensures Multiplier(a[i].status, s) <= Multiplier(items[i].status, t) {
      if i != j {
        MultiplierMonotone(items[i].status, s, t);
      }
    }
  }

  function ToFail(t: Tally): Tally
    requires t.passed >= 1
  {
    Tally(t.passed - 1, t.failed + 1, t.inconclusive)
  }

  function ToPass(t: Tally): Tally
    requires t.inconclusive >= 1
  {
    Tally(t.passed + 1, t.failed, t.inconclusive - 1)
  }

  lemma FailedTally(items: seq<Item>, j: nat)
    requires j < |items| && items[j].status == Some(Pass)
    ensures TallyOf(items).passed >= 1 && TallyOf(Judged(items, j, Fail)) == ToFail(TallyOf(items))
  {
    TallyUpdate(items, j, items[j].(status := Some(Fail)));
    CancelPass(TallyOf(items), TallyOf(Judged(items, j, Fail)));
  }

  lemma CancelPass(t: Tally, u: Tally)
    requires Plus(u, One(Some(Pass))) == Plus(t, One(Some(Fail)))
    ensures t.passed >= 1 && u == ToFail(t)
  {
  }

  lemma FailedTallyTrust(t: Tally, u: Tally)
    requires t.passed >= 1 && u == ToFail(t) && !FailureRaisesTrust(t)
    ensures 0.0 <= Trust(u) <= Trust(t)
  {
    PassToFailTrust(t);
    TrustBounded(u);
  }

  lemma FailedTrust(items: seq<Item>, j: nat)
    requires j < |items| && items[j].status == Some(Pass) && !FailureRaisesTrust(TallyOf(items))
    ensures 0.0 <= Trust(TallyOf(Judged(items, j, Fail))) <= Trust(TallyOf(items))
  {
    FailedTally(items, j);
    FailedTallyTrust(TallyOf(items), TallyOf(Judged(items, j, Fail)));
  }

  lemma FailedPays(items: seq<Item>, j: nat, s: real, t: real)
    requires NonNegative(items) && j < |items| && 0.0 <= s <= t
    ensures Sum(PayAt(s), Judged(items, j, Fail)) <= Sum(PayAt(t), items)
  {
    MultipliersOrder(items, j, Fail, s, t);
    PaidOrder(Judged(items, j, Fail), s, items, t);
  }

  /** One pass turned into a failure does not raise what is payable unless it raises trust. */
  lemma PassToFailPays(items: seq<Item>, j: nat)
    requires NonNegative(items) && j < |items| && items[j].status == Some(Pass)
    requires !FailureRaisesTrust(TallyOf(items))
    ensures Trust(TallyOf(Judged(items, j, Fail))) <= Trust(TallyOf(items))
    ensures Payable(Judged(items, j, Fail)) <= Payable(items)
  {
    FailedTrust(items, j);
    FailedPays(items, j, Trust(TallyOf(Judged(items, j, Fail))), Trust(TallyOf(items)));
  }

  /** No worker with these verdicts can gain from a pass that turns into a failure. */
  ghost predicate FailureNeverPays(t: Tally)
  {
    forall items: seq<Item>, j: nat {:trigger Judged(items, j, Fail)} ::
      NonNegative(items) && TallyOf(items) == t && j < |items| && items[j].status == Some(Pass) ==>
        Payable(Judged(items, j, Fail)) <= Payable(items)
  }

  lemma {:induction false} TallyConcat(a: seq<Item>, b: seq<Item>)
    ensures TallyOf(a + b) == Plus(TallyOf(a), TallyOf(b))
    decreases |b|
  {
    if b == [] {
      assert a + b == a;
    } else {
      var n := |b| - 1;
      TallyConcat(a, b[..n]);
      assert (a + b)[..|a + b| - 1] == a + b[..n];
    }
  }

  /** `n` receipts of no compute units with the same verdict. */
  function Unpaid(n: nat, status: Status): (items: seq<Item>)
    ensures |items| == n && forall i :: 0 <= i < n ==> items[i] == Item(0.0, Some(status))
  {
    if n == 0 then [] else Unpaid(n - 1, status) + [Item(0.0, Some(status))]
  }

  function Times(n: nat, t: Tally): Tally { Tally(n * t.passed, n * t.failed, n * t.inconclusive) }

  lemma {:induction false} UnpaidTally(n: nat, status: Status)
    ensures TallyOf(Unpaid(n, status)) == Times(n, One(Some(status)))
  {
    if n > 0 {
      UnpaidTally(n - 1, status);
      var items := Unpaid(n, status);
      assert items[..n - 1] == Unpaid(n - 1, status);
      OneMore(n, One(Some(status)));
    }
  }

  lemma OneMore(n: nat, t: Tally)
    requires n > 0
    ensures Plus(Times(n - 1, t), t) == Times(n, t)
  {
  }

  /** The only paid receipt is the last, which has no verdict: it earns the worker's trust. */
  lemma OnePaid(items: seq<Item>, trust: real)
    requires items != [] && items[|items| - 1] == Item(1.0, None)
    requires forall i :: 0 <= i < |items| - 1 ==> items[i].cu == 0.0
    ensures Sum(PayAt(trust), items) == trust
  {
    var f, n := PayAt(trust), |items| - 1;
    forall i | 0 <= i < n ensures f(items[..n][i]) == 0.0 {
      assert f(items[i]) == Pay(items[i], trust) == 0.0;
    }
    SumZero(f, items[..n]);
    assert f(items[n]) == Pay(items[n], trust) == trust;
  }

  /** A worker with these verdicts, all on unpaid receipts, and one paid receipt that nobody has checked. */
  lemma OnePaidWorker(t: Tally) returns (items: seq<Item>)
    requires t.failed == 0
    ensures NonNegative(items) && TallyOf(items) == t && |items| == t.passed + t.inconclusive + 1
    ensures items[|items| - 1] == Item(1.0, None) && forall i :: 0 <= i < |items| - 1 ==> items[i].cu == 0.0
    ensures t.passed > 0 ==> items[0].status == Some(Pass)
  {
    var passed, open := Unpaid(t.passed, Pass), Unpaid(t.inconclusive, Inconclusive);
    var front := passed + open;
    items := front + [Item(1.0, None)];
    FrontTally(t, passed, open, front);
    LastUnchecked(front, items);
  }

  lemma FrontTally(t: Tally, passed: seq<Item>, open: seq<Item>, front: seq<Item>)
    requires t.failed == 0 && front == passed + open
    requires passed == Unpaid(t.passed, Pass) && open == Unpaid(t.inconclusive, Inconclusive)
    ensures TallyOf(front) == t
  {
    UnpaidTally(t.passed, Pass);
    UnpaidTally(t.inconclusive, Inconclusive);
    TallyConcat(passed, open);
  }

  lemma LastUnchecked(front: seq<Item>, items: seq<Item>)
    requires items == front + [Item(1.0, None)]
    ensures TallyOf(items) == TallyOf(front)
  {
    assert items[..|items| - 1] == front;
  }

  /** A worker with such verdicts whose first failure raises what is payable to it. */
  lemma FailureCanPay(t: Tally) returns (items: seq<Item>, j: nat)
    requires FailureRaisesTrust(t)
    ensures NonNegative(items) && TallyOf(items) == t && j < |items| && items[j].status == Some(Pass)
    ensures Payable(Judged(items, j, Fail)) > Payable(items)
  {
    items := OnePaidWorker(t);
    j := 0;
    FailedTally(items, j);
    PassToFailTrust(t);
    OnePaid(items, Trust(t));
    OnePaid(Judged(items, j, Fail), Trust(ToFail(t)));
  }

  /** A pass that turns into a failure can raise what is payable exactly where it raises trust. */
  lemma PassToFailPaysIff(t: Tally)
    ensures FailureNeverPays(t) <==> !FailureRaisesTrust(t)
  {
    if FailureRaisesTrust(t) {
      var items, j := FailureCanPay(t);
    } else {
      forall items: seq<Item>, j: nat |
        NonNegative(items) && TallyOf(items) == t && j < |items| && items[j].status == Some(Pass)
        ensures Payable(Judged(items, j, Fail)) <= Payable(items)
      {
        PassToFailPays(items, j);
      }
    }
  }

  lemma LaterMultipliers(items: seq<Item>, j: nat, s: real, t: real)
    requires j < |items| && items[j].status == Some(Inconclusive) && 0.0 <= s <= t
    ensures var a := Judged(items, j, Pass);
            forall i :: 0 <= i < |items| ==>
              a[i].cu == items[i].cu && Multiplier(items[i].status, s) <= Multiplier(a[i].status, t)
  {
    var a := Judged(items, j, Pass);
    forall i | 0 <= i < |items| ensures Multiplier(items[i].status, s) <= Multiplier(a[i].status, t) {
      if i != j {
        MultiplierMonotone(items[i].status, s, t);
      }
    }
  }

  lemma PassedTally(items: seq<Item>, j: nat)
    requires j < |items| && items[j].status == Some(Inconclusive)
    ensures TallyOf(items).inconclusive >= 1 && TallyOf(Judged(items, j, Pass)) == ToPass(TallyOf(items))
  {
    TallyUpdate(items, j, items[j].(status := Some(Pass)));
    CancelInconclusive(TallyOf(items), TallyOf(Judged(items, j, Pass)));
  }

  lemma CancelInconclusive(t: Tally, u: Tally)
    requires Plus(u, One(Some(Inconclusive))) == Plus(t, One(Some(Pass)))
    ensures t.inconclusive >= 1 && u == ToPass(t)
  {
  }

  lemma PassedTallyTrust(t: Tally, u: Tally)
    requires t.inconclusive >= 1 && u == ToPass(t)
    ensures 0.0 <= Trust(t) <= Trust(u)
  {
    TrustOrder(t, u);
    TrustBounded(t);
  }

  lemma PassedTrust(items: seq<Item>, j: nat)
    requires j < |items| && items[j].status == Some(Inconclusive)
    ensures 0.0 <= Trust(TallyOf(items)) <= Trust(TallyOf(Judged(items, j, Pass)))
  {
    PassedTally(items, j);
    PassedTallyTrust(TallyOf(items), TallyOf(Judged(items, j, Pass)));
  }

  lemma PassedPays(items: seq<Item>, j: nat, s: real, t: real)
    requires NonNegative(items) && j < |items| && items[j].status == Some(Inconclusive) && 0.0 <= s <= t
    ensures Sum(PayAt(s), items) <= Sum(PayAt(t), Judged(items, j, Pass))
  {
    LaterMultipliers(items, j, s, t);
    PaidOrder(items, s, Judged(items, j, Pass), t);
  }

  /** An inconclusive verdict turned into a pass lowers neither trust nor what is payable. */
  lemma InconclusiveToPassPays(items: seq<Item>, j: nat)
    requires NonNegative(items) && j < |items| && items[j].status == Some(Inconclusive)
    ensures Trust(TallyOf(items)) <= Trust(TallyOf(Judged(items, j, Pass)))
    ensures Payable(items) <= Payable(Judged(items, j, Pass))
  {
    PassedTrust(items, j);
    PassedPays(items, j, Trust(TallyOf(items)), Trust(TallyOf(Judged(items, j, Pass))));
  }

  /** Four passes and thirteen inconclusive verdicts: failing one of the passes raises the worker's trust. */
  lemma FirstFailureCanRaiseTrust()
    ensures Trust(Tally(3, 1, 13)) > Trust(Tally(4, 0, 13))
  {
    PassToFailTrust(Tally(4, 0, 13));
  }
}
