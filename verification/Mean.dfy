/** Averages of vectors and what replacing one of them does. */
module Mean {
  import opened Reals

  predicate SameSize(n: nat, vs: seq<Vec>) { forall i :: 0 <= i < |vs| ==> |vs[i]| == n }

  /** A vector divided by the number of ranks. */
  function Over(v: Vec, ranks: nat): (r: Vec)
    requires ranks >= 1
    ensures |r| == |v|
  {
    seq(|v|, i requires 0 <= i < |v| => v[i] / ranks as real)
  }

  /** The sum of all the vectors, each divided by `ranks`. */
  function Mean(n: nat, ranks: nat, vs: seq<Vec>): (m: Vec)
    requires ranks >= 1 && SameSize(n, vs)
    ensures |m| == n
    decreases |vs|
  {
    if vs == [] then Zeros(n) else Add(Mean(n, ranks, vs[..|vs| - 1]), Over(vs[|vs| - 1], ranks))
  }

  /** The same without the vector at `skip`. */
  function MeanOthers(n: nat, ranks: nat, vs: seq<Vec>, skip: nat): (m: Vec)
    requires ranks >= 1 && SameSize(n, vs)
    ensures |m| == n
    decreases |vs|
  {
    if vs == [] then Zeros(n)
    else
      var k := |vs| - 1;
      var m := MeanOthers(n, ranks, vs[..k], skip);
      if k == skip then m else Add(m, Over(vs[k], ranks))
  }

  lemma AddAssoc(a: Vec, b: Vec, c: Vec)
    requires |a| == |b| == |c|
    ensures Add(Add(a, b), c) == Add(a, Add(b, c))
  {
  }

  lemma AddCommutes(a: Vec, b: Vec)
    requires |a| == |b|
    ensures Add(a, b) == Add(b, a)
  {
  }

  lemma AddZero(n: nat, a: Vec)
    requires |a| == n
    ensures Add(Zeros(n), a) == a == Add(a, Zeros(n))
  {
  }

  lemma {:induction false} OthersBeyond(n: nat, ranks: nat, vs: seq<Vec>, skip: nat)
    requires ranks >= 1 && SameSize(n, vs) && |vs| <= skip
    ensures MeanOthers(n, ranks, vs, skip) == Mean(n, ranks, vs)
    decreases |vs|
  {
    if vs != [] {
      OthersBeyond(n, ranks, vs[..|vs| - 1], skip);
    }
  }

  /** One vector first and then the others gives the same as all in order. */
  lemma {:induction false} OwnFirst(n: nat, ranks: nat, vs: seq<Vec>, own: nat)
    requires ranks >= 1 && SameSize(n, vs) && own < |vs|
    ensures Add(Over(vs[own], ranks), MeanOthers(n, ranks, vs, own)) == Mean(n, ranks, vs)
    decreases |vs|
  {
    var k := |vs| - 1;
    var head, last := vs[..k], Over(vs[k], ranks);
    if k == own {
      OthersBeyond(n, ranks, head, own);
      AddCommutes(last, Mean(n, ranks, head));
    } else {
      OwnFirst(n, ranks, head, own);
      AddAssoc(Over(vs[own], ranks), MeanOthers(n, ranks, head, own), last);
    }
  }

  /** The other vectors added one after another to `first`. */
  function Onto(n: nat, ranks: nat, first: Vec, vs: seq<Vec>, skip: nat): (m: Vec)
    requires ranks >= 1 && SameSize(n, vs) && |first| == n
    ensures |m| == n
    decreases |vs|
  {
    if vs == [] then first
    else
      var k := |vs| - 1;
      var m := Onto(n, ranks, first, vs[..k], skip);
      if k == skip then m else Add(m, Over(vs[k], ranks))
  }

  lemma {:induction false} OntoIsSum(n: nat, ranks: nat, first: Vec, vs: seq<Vec>, skip: nat)
    requires ranks >= 1 && SameSize(n, vs) && |first| == n
    ensures Onto(n, ranks, first, vs, skip) == Add(first, MeanOthers(n, ranks, vs, skip))
    decreases |vs|
  {
    if vs == [] {
      AddZero(n, first);
    } else {
      var k := |vs| - 1;
      OntoIsSum(n, ranks, first, vs[..k], skip);
      AddAssoc(first, MeanOthers(n, ranks, vs[..k], skip), Over(vs[k], ranks));
    }
  }

  /** One vector and then the others, added to zero one after another, make the average. */
  lemma OntoIsMean(n: nat, ranks: nat, first: Vec, vs: seq<Vec>, own: nat)
    requires ranks >= 1 && SameSize(n, vs) && own < |vs| && |first| == n && first == Add(Zeros(n), Over(vs[own], ranks))
    ensures Onto(n, ranks, first, vs, own) == Mean(n, ranks, vs)
  {
    AddZero(n, Over(vs[own], ranks));
    OntoIsSum(n, ranks, first, vs, own);
    OwnFirst(n, ranks, vs, own);
  }

  lemma {:induction false} OthersIgnore(n: nat, ranks: nat, vs: seq<Vec>, skip: nat, x: Vec)
    requires ranks >= 1 && SameSize(n, vs) && skip < |vs| && |x| == n
    ensures SameSize(n, vs[skip := x]) && MeanOthers(n, ranks, vs[skip := x], skip) == MeanOthers(n, ranks, vs, skip)
    decreases |vs|
  {
    var k := |vs| - 1;
    if k > skip {
      OthersIgnore(n, ranks, vs[..k], skip, x);
      assert vs[skip := x][..k] == vs[..k][skip := x];
    } else {
      assert vs[skip := x][..k] == vs[..k];
    }
  }

  /** Two averages in which different places have been corrected by different amounts. */
  lemma CorrectedMeans(n: nat, ranks: nat, vs: seq<Vec>, a: nat, x: Vec, b: nat, y: Vec)
    requires ranks >= 1 && SameSize(n, vs) && a < |vs| && b < |vs| && |x| == |y| == n
    ensures SameSize(n, vs[a := x]) && SameSize(n, vs[b := y])
    ensures Mean(n, ranks, vs[a := x]) == Mean(n, ranks, vs[b := y]) <==> Sub(vs[a], x) == Sub(vs[b], y)
  {
    Corrected(n, ranks, vs, a, x);
    Corrected(n, ranks, vs, b, y);
    var m, p, q := Mean(n, ranks, vs), Mean(n, ranks, vs[a := x]), Mean(n, ranks, vs[b := y]);
    var e, f := Sub(vs[a], x), Sub(vs[b], y);
    if p == q {
      forall i | 0 <= i < n ensures e[i] == f[i] {
        assert p[i] == m[i] - Over(e, ranks)[i] && q[i] == m[i] - Over(f, ranks)[i];
        SameQuotient(e[i], f[i], ranks);
      }
    }
  }

  lemma SameQuotient(e: real, f: real, ranks: nat)
    requires ranks >= 1 && e / ranks as real == f / ranks as real
    ensures e == f
  {
    assert e == (e / ranks as real) * ranks as real;
    assert f == (f / ranks as real) * ranks as real;
  }

  lemma DifferenceOfQuotients(u: real, x: real, ranks: nat)
    requires ranks >= 1
    ensures u / ranks as real - x / ranks as real == (u - x) / ranks as real
  {
  }

  /** Replacing one vector moves the average by the correction over the number of ranks. */
  lemma Corrected(n: nat, ranks: nat, vs: seq<Vec>, a: nat, x: Vec)
    requires ranks >= 1 && SameSize(n, vs) && a < |vs| && |x| == n
    ensures SameSize(n, vs[a := x])
    ensures Mean(n, ranks, vs[a := x]) == Sub(Mean(n, ranks, vs), Over(Sub(vs[a], x), ranks))
  {
    OthersIgnore(n, ranks, vs, a, x);
    OwnFirst(n, ranks, vs, a);
    OwnFirst(n, ranks, vs[a := x], a);
    var others := MeanOthers(n, ranks, vs, a);
    var p, q := Add(Over(x, ranks), others), Sub(Add(Over(vs[a], ranks), others), Over(Sub(vs[a], x), ranks));
    forall i | 0 <= i < n ensures p[i] == q[i] {
      DifferenceOfQuotients(vs[a][i], x[i], ranks);
    }
  }
}
