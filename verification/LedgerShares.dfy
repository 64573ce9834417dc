/**
 What a receipt earns, said in the numbers of its worker's verdicts alone, and the workers that are paid all
 they claim.
 */
module LedgerShares {
  import opened Common
  import opened Ledger

  // ------------------------------------------------------------------------
  // Counting verdicts
  // ------------------------------------------------------------------------

  predicate HasPassed(x: Item) { x.status == Some(Pass) }

  predicate HasFailed(x: Item) { x.status == Some(Fail) }

  /** Any other verdict counts as inconclusive. */
  predicate Undecided(x: Item) { x.status.Some? && !HasPassed(x) && !HasFailed(x) }

  function Places(items: seq<Item>, p: Item -> bool): set<nat> { set j: nat | j < |items| && p(items[j]) }

  lemma OnePlaceMore(items: seq<Item>, p: Item -> bool)
    requires items != []
    ensures var n := |items| - 1;
            |Places(items, p)| == |Places(items[..n], p)| + (if p(items[n]) then 1 else 0)
  {
    var n := |items| - 1;
    var before := Places(items[..n], p);
    assert Places(items, p) == before + (if p(items[n]) then {n} else {});
  }

  /** The tally counts the items with each verdict. */
  lemma {:induction false} TallyCounts(items: seq<Item>)
    ensures TallyOf(items).passed == |Places(items, HasPassed)|
    ensures TallyOf(items).failed == |Places(items, HasFailed)|
    ensures TallyOf(items).inconclusive == |Places(items, Undecided)|
    decreases |items|
  {
    if items != [] {
      TallyCounts(items[..|items| - 1]);
      OnePlaceMore(items, HasPassed);
      OnePlaceMore(items, HasFailed);
      OnePlaceMore(items, Undecided);
    }
  }

  lemma NonePlaced(items: seq<Item>, p: Item -> bool)
    ensures |Places(items, p)| == 0 <==> forall j :: 0 <= j < |items| ==> !p(items[j])
  {
    if |Places(items, p)| == 0 {
      forall j | 0 <= j < |items| ensures !p(items[j]) {
        assert j !in Places(items, p);
      }
    }
  }

  // ------------------------------------------------------------------------
  // What one receipt earns
  // ------------------------------------------------------------------------

  /**
   With `p` passes, `f` failures and `i` other verdicts, the verdicts a worker is credited with, in quarters: the
   passes less two for each failure, or, before the first failure, less a quarter for each other verdict.
   */
  function Quarters(p: nat, f: nat, i: nat): nat
  {
    if f > 0 then (if p >= 2 * f then 4 * (p - 2 * f) else 0) else (if 4 * p >= i then 4 * p - i else 0)
  }

  /** A receipt that is inconclusive itself is credited with at most half the verdicts. */
  function Credited(x: Item, p: nat, f: nat, i: nat): nat
  {
    var half := 2 * (p + f + i);
    if x.status == Some(Inconclusive) && Quarters(p, f, i) > half then half else Quarters(p, f, i)
  }

  /** The share of its claim that a receipt earns: nothing if it failed, else the credited part of the verdicts. */
  predicate Earns(x: Item, p: nat, f: nat, i: nat, paid: real)
  {
    if x.status == Some(Fail) then paid == 0.0
    else if p + f + i == 0 then paid == (if x.status == Some(Inconclusive) then x.cu / 2.0 else x.cu)
    else Makes(paid, (4 * (p + f + i)) as real, x.cu * Credited(x, p, f, i) as real)
  }

  predicate Makes(x: real, n: real, a: real) { x * n == a }

  lemma PositivePart(a: real, n: real)
    requires n > 0.0
    ensures AtLeastZero(a / n) * n == AtLeastZero(a)
  {
    assert a / n * n == a;
    if a >= 0.0 {
      assert a / n >= 0.0;
    } else {
      assert (0.0 - a) / n > 0.0;
      assert 0.0 - a / n == (0.0 - a) / n;
    }
  }

  lemma ScoreQuarters(t: Tally)
    ensures 4.0 * AtLeastZero(Score(t)) == Quarters(t.passed, t.failed, t.inconclusive) as real
  {
  }

  lemma FourTimes(x: real, n: real, a: real)
    requires x * n == a
    ensures Makes(x, 4.0 * n, 4.0 * a)
  {
  }

  lemma Quartered(a: real, n: real)
    requires n > 0.0
    ensures Makes(AtLeastZero(a / n), 4.0 * n, 4.0 * AtLeastZero(a))
  {
    PositivePart(a, n);
    FourTimes(AtLeastZero(a / n), n, AtLeastZero(a));
  }

  lemma TrustQuarters(t: Tally)
    requires Checked(t) > 0
    ensures Makes(Trust(t), (4 * Checked(t)) as real, Quarters(t.passed, t.failed, t.inconclusive) as real)
  {
    TrustIsScore(t);
    Quartered(Score(t), Checked(t) as real);
    ScoreQuarters(t);
  }

  lemma HalfOrLess(trust: real, n: real, a: real)
    requires n > 0.0 && Makes(trust, n, a)
    ensures trust <= 0.5 <==> a <= n / 2.0
    ensures Makes(0.5, n, n / 2.0)
  {
    if trust <= 0.5 {
      assert (0.5 - trust) * n >= 0.0;
    } else {
      assert (trust - 0.5) * n > 0.0;
    }
  }

  lemma MultiplierCredits(t: Tally, x: Item)
    requires Checked(t) > 0 && x.status != Some(Fail)
    ensures Makes(Multiplier(x.status, Trust(t)), (4 * Checked(t)) as real,
                  Credited(x, t.passed, t.failed, t.inconclusive) as real)
  {
    TrustQuarters(t);
    HalfOrLess(Trust(t), (4 * Checked(t)) as real, Quarters(t.passed, t.failed, t.inconclusive) as real);
  }

  lemma Scaled(cu: real, m: real, n: real, a: real)
    requires Makes(m, n, a)
    ensures Makes(cu * m, n, cu * a)
  {
    assert cu * m * n == cu * (m * n);
  }

  lemma EarnsChecked(x: Item, p: nat, f: nat, i: nat, m: real)
    requires x.status != Some(Fail) && p + f + i > 0
    requires Makes(m, (4 * (p + f + i)) as real, Credited(x, p, f, i) as real)
    ensures Earns(x, p, f, i, x.cu * m)
  {
    Scaled(x.cu, m, (4 * (p + f + i)) as real, Credited(x, p, f, i) as real);
  }

  /** The multiplier that gives a receipt what it earns. */
  predicate Rate(x: Item, p: nat, f: nat, i: nat, m: real)
  {
    if x.status == Some(Fail) then m == 0.0
    else if p + f + i == 0 then m == (if x.status == Some(Inconclusive) then 0.5 else 1.0)
    else Makes(m, (4 * (p + f + i)) as real, Credited(x, p, f, i) as real)
  }

  lemma EarnsAt(x: Item, p: nat, f: nat, i: nat, m: real, paid: real)
    requires Rate(x, p, f, i, m) && paid == x.cu * m
    ensures Earns(x, p, f, i, paid)
  {
    if x.status != Some(Fail) && p + f + i > 0 {
      EarnsChecked(x, p, f, i, m);
    }
  }

  lemma MultiplierRate(t: Tally, x: Item)
    ensures Rate(x, t.passed, t.failed, t.inconclusive, Multiplier(x.status, Trust(t)))
  {
    if Checked(t) > 0 && x.status != Some(Fail) {
      MultiplierCredits(t, x);
    }
  }

  lemma PaysAtRate(x: Item, p: nat, f: nat, i: nat, trust: real)
    requires Rate(x, p, f, i, Multiplier(x.status, trust))
    ensures Earns(x, p, f, i, Pay(x, trust))
  {
    EarnsAt(x, p, f, i, Multiplier(x.status, trust), Pay(x, trust));
  }

  /** What each item is paid, by the numbers of its worker's verdicts. */
  lemma EarnsByCounts(items: seq<Item>, x: Item)
    ensures Earns(x, |Places(items, HasPassed)|, |Places(items, HasFailed)|, |Places(items, Undecided)|,
                  Pay(x, Trust(TallyOf(items))))
  {
    TallyCounts(items);
    MultiplierRate(TallyOf(items), x);
    PaysAtRate(x, TallyOf(items).passed, TallyOf(items).failed, TallyOf(items).inconclusive, Trust(TallyOf(items)));
  }

  // ------------------------------------------------------------------------
  // What a receipt claims
  // ------------------------------------------------------------------------

  /** Without bytes a receipt claims its seconds, and a billion bytes, read or written, claim one second more. */
  lemma Claims(r: Receipt, more: int)
    ensures r.bytesRead == 0 && r.bytesWritten == 0 ==> Cu(r) == r.computeSec
    ensures Cu(r.(computeSec := r.computeSec + more as real)) == Cu(r) + more as real
    ensures Cu(r.(bytesRead := r.bytesRead + 1_000_000_000 * more)) == Cu(r) + more as real
    ensures Cu(r.(bytesWritten := r.bytesWritten + 1_000_000_000 * more)) == Cu(r) + more as real
  {
    Billions(r.bytesRead + r.bytesWritten, more);
  }

  lemma Billions(b: int, more: int)
    ensures (b + 1_000_000_000 * more) as real / 1000000000.0 == b as real / 1000000000.0 + more as real
  {
    assert (b + 1_000_000_000 * more) as real == b as real + 1000000000.0 * more as real;
  }

  // ------------------------------------------------------------------------
  // Who is paid all
  // ------------------------------------------------------------------------

  predicate OnlyPasses(items: seq<Item>)
  {
    forall j :: 0 <= j < |items| ==> items[j].status.None? || HasPassed(items[j])
  }

  predicate NothingClaimed(items: seq<Item>) { forall j :: 0 <= j < |items| ==> items[j].cu == 0.0 }

  /** Trust is whole exactly when no verdict is other than a pass. */
  lemma WholeTrust(items: seq<Item>)
    ensures OnlyPasses(items) <==> Trust(TallyOf(items)) == 1.0
  {
    TallyCounts(items);
    NonePlaced(items, HasFailed);
    NonePlaced(items, Undecided);
    TrustBounded(TallyOf(items));
  }

  lemma {:induction false} SumSame<T>(f: T -> real, g: T -> real, s: seq<T>)
    requires forall i :: 0 <= i < |s| ==> f(s[i]) == g(s[i])
    ensures Sum(f, s) == Sum(g, s)
    decreases |s|
  {
    if s != [] {
      SumSame(f, g, s[..|s| - 1]);
    }
  }

  lemma {:induction false} SumLess<T>(f: T -> real, g: T -> real, s: seq<T>, j: nat)
    requires j < |s| && f(s[j]) < g(s[j]) && forall i :: 0 <= i < |s| ==> f(s[i]) <= g(s[i])
    ensures Sum(f, s) < Sum(g, s)
    decreases |s|
  {
    var n := |s| - 1;
    if j < n {
      SumLess(f, g, s[..n], j);
    } else {
      SumOrder(f, s[..n], g, s[..n]);
    }
  }

  lemma PaidLess(x: Item, trust: real)
    requires x.cu > 0.0 && 0.0 <= trust < 1.0
    ensures Pay(x, trust) < x.cu
  {
    LessThanAll(x.cu, Multiplier(x.status, trust), Pay(x, trust));
  }

  lemma LessThanAll(cu: real, m: real, paid: real)
    requires cu > 0.0 && m < 1.0 && paid == cu * m
    ensures paid < cu
  {
    assert cu * (1.0 - m) > 0.0;
  }

  lemma PaidFull(x: Item)
    requires x.status.None? || HasPassed(x)
    ensures Pay(x, 1.0) == x.cu
  {
  }

  /**
   A worker is paid all it claims when none of its verdicts is other than a pass, or it claims nothing; in every
   other case it is paid less.
   */
  lemma PaidAllIff(items: seq<Item>)
    requires NonNegative(items)
    ensures OnlyPasses(items) || NothingClaimed(items) ==> Payable(items) == Estimated(items)
    ensures !OnlyPasses(items) && !NothingClaimed(items) ==> Payable(items) < Estimated(items)
  {
    var trust := Trust(TallyOf(items));
    var pay, cu := PayAt(trust), CuOf();
    TrustBounded(TallyOf(items));
    if OnlyPasses(items) {
      WholeTrust(items);
      forall i | 0 <= i < |items| ensures pay(items[i]) == cu(items[i]) {
        PaidFull(items[i]);
      }
      SumSame(pay, cu, items);
    } else if NothingClaimed(items) {
      forall i | 0 <= i < |items| ensures pay(items[i]) == cu(items[i]) {
        PayBounded(items[i], trust);
      }
      SumSame(pay, cu, items);
    } else {
      WholeTrust(items);
      var j :| 0 <= j < |items| && items[j].cu != 0.0;
      forall i | 0 <= i < |items| ensures pay(items[i]) <= cu(items[i]) {
        PayBounded(items[i], trust);
      }
      PaidLess(items[j], trust);
      SumLess(pay, cu, items, j);
    }
  }

  /** Claims that may be negative as well: without a verdict other than a pass the whole sum is paid. */
  lemma PassesPayAll(items: seq<Item>)
    requires OnlyPasses(items)
    ensures Payable(items) == Estimated(items)
  {
    var pay, cu := PayAt(1.0), CuOf();
    WholeTrust(items);
    forall i | 0 <= i < |items| ensures pay(items[i]) == cu(items[i]) {
      PaidFull(items[i]);
    }
    SumSame(pay, cu, items);
  }
}
