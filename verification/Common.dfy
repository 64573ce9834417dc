/** Small datatypes shared by the modules of this project. */
module Common {

  datatype Option<+T> = None | Some(value: T)

  datatype Result<+T> = Ok(value: T) | Err(reason: string)

  /** True when every binding of `a` is also a binding of `b`. */
  ghost predicate Within<K(!new), V>(a: map<K, V>, b: map<K, V>)
  {
    forall k :: k in a ==> k in b && a[k] == b[k]
  }

  /** No element occurs twice. */
  predicate Distinct<T(==)>(s: seq<T>) { forall i, j :: 0 <= i < j < |s| ==> s[i] != s[j] }

  /** The number of elements of a tensor of this shape. */
  function Product(shape: seq<int>): int
  {
    if shape == [] then 1 else Product(shape[..|shape| - 1]) * shape[|shape| - 1]
  }

  lemma {:induction false} SubsetSize<T>(a: set<T>, b: set<T>)
    requires a <= b
    ensures |a| <= |b|
  {
    if a != {} {
      var x :| x in a;
      SubsetSize(a - {x}, b - {x});
    }
  }

  /** A set of the integers below `n` that has `n` elements is all of them. */
  lemma {:induction false} FullRange(s: set<nat>, n: nat)
    requires forall x :: x in s ==> x < n
    ensures |s| <= n
    ensures |s| >= n ==> forall x :: 0 <= x < n ==> x in s
  {
    if n > 0 {
      var t := s - {n - 1};
      FullRange(t, n - 1);
      if n - 1 in s {
        assert s == t + {n - 1};
      } else {
        assert s == t;
      }
    }
  }
}
