/** Remainders. */
module Modulo {

  lemma AtLeastOne(e: int, d: nat)
    ensures e >= 1 ==> e * d >= d
  {
  }

  lemma RemainderUnique(q1: int, r1: int, q2: int, r2: int, d: nat)
    requires q1 * d + r1 == q2 * d + r2 && 0 <= r1 < d && 0 <= r2 < d
    ensures r1 == r2
  {
    var e := q1 - q2;
    assert e * d == r2 - r1;
    AtLeastOne(e, d);
    AtLeastOne(-e, d);
  }

  lemma ModStep(n: nat, d: nat, a: int, b: int)
    requires d >= 1 && n >= d && a == (n - d) % d && b == n % d
    ensures a == b
  {
    var q, p := (n - d) / d, n / d;
    assert n - d == q * d + a;
    assert n == p * d + b;
    RemainderUnique(q + 1, a, p, b, d);
  }

  lemma Remainder(q: int, n: nat, r: nat, x: int)
    requires r < n && x == q * n + r
    ensures x % n == r
  {
    assert x == (x / n) * n + x % n;
    RemainderUnique(x / n, x % n, q, r, n);
  }

  /** Equal remainders less than a divisor apart belong to equal numbers. */
  lemma ModUnique(a: int, b: int, n: nat)
    requires n >= 1 && 0 <= b - a < n && a % n == b % n
    ensures a == b
  {
    var r := a % n;
    assert a == (a / n) * n + r && b == (b / n) * n + r;
    SmallMultiple(b / n - a / n, n, b - a);
  }

  lemma SmallMultiple(e: int, n: nat, d: int)
    requires d == e * n && 0 <= d < n
    ensures d == 0
  {
    AtLeastOne(e, n);
    AtLeastOne(-e, n);
  }
}
