/** How often each of several places comes up when they are taken in turn. */
module TakingTurns {
  import opened Modulo

  /** The first `n` slots that fall to place `j` of `p`. */
  function Turns(n: nat, p: nat, j: nat): set<nat>
    requires p > 0
  {
    set i: nat | i < n && Falls(i, p, j)
  }

  predicate Falls(i: nat, p: nat, j: nat)
    requires p > 0
  {
    i % p == j
  }

  lemma OneMoreTurn(n: nat, p: nat, j: nat)
    requires p > 0
    ensures |Turns(n + 1, p, j)| == |Turns(n, p, j)| + if n % p == j then 1 else 0
  {
    assert Turns(n + 1, p, j) == Turns(n, p, j) + if n % p == j then {n} else {};
  }

  lemma NoTurns(p: nat, j: nat)
    requires p > 0
    ensures |Turns(0, p, j)| == 0
  {
  }

  lemma NextRemainder(n: nat, p: nat)
    requires p > 0
    ensures (n + 1) % p == if n % p == p - 1 then 0 else n % p + 1
  {
    var q, r := n / p, n % p;
    assert n == q * p + r;
    if r == p - 1 {
      Remainder(q + 1, p, 0, n + 1);
    } else {
      Remainder(q, p, r + 1, n + 1);
    }
  }

  /** A place before the next one in turn has had one turn more. */
  function Ahead(j: nat, next: nat): nat { if j < next then 1 else 0 }

  lemma AheadMoves(p: nat, j: nat, k: nat, r: nat)
    requires j < p && k < p && r < p
    ensures var next := if r == p - 1 then 0 else r + 1;
            Ahead(j, next) - Ahead(k, next) ==
            Ahead(j, r) - Ahead(k, r) + (if r == j then 1 else 0) - (if r == k then 1 else 0)
  {
  }

  lemma {:induction false} TurnsDiffer(n: nat, p: nat, j: nat, k: nat, next: nat)
    requires j < p && k < p && next == n % p
    ensures |Turns(n, p, j)| - |Turns(n, p, k)| == Ahead(j, next) - Ahead(k, next)
  {
    if n == 0 {
      NoTurns(p, j);
      NoTurns(p, k);
      Remainder(0, p, 0, 0);
    } else {
      var r := (n - 1) % p;
      TurnsDiffer(n - 1, p, j, k, r);
      OneMoreTurn(n - 1, p, j);
      OneMoreTurn(n - 1, p, k);
      NextRemainder(n - 1, p);
      AheadMoves(p, j, k, r);
    }
  }
}
