/**
 Array operations with the rules of numpy: slices that stop at the end of the data, strides,
 element-wise operations and assignments that stretch an array of one element, and on top of them
 the unpacking of twelve-bit indices, which accepts some inputs that are too short.
 */
module Broadcast {
  import opened Common
  import opened Bytes

  /** A slice; bounds past the end are pulled back to it. */
  function Clip<T>(s: seq<T>, lo: nat, hi: nat): seq<T>
    requires lo <= hi
  {
    s[if lo <= |s| then lo else |s|..if hi <= |s| then hi else |s|]
  }

  function Left(t: nat, lo: nat): nat { if t >= lo then t - lo else 0 }

  lemma ClipPrefix<T>(s: seq<T>, t: nat, lo: nat, hi: nat)
    requires lo <= hi <= |s| && t <= |s|
    ensures Clip(s[..t], lo, hi) == Clip(Clip(s, lo, hi), 0, Left(t, lo))
  {
    var a, b := Clip(s[..t], lo, hi), Clip(Clip(s, lo, hi), 0, Left(t, lo));
    assert |a| == |b|;
    forall i | 0 <= i < |a| ensures a[i] == b[i] {
      assert a[i] == s[lo + i] == b[i];
    }
  }

  /** Every third element, from `k` on. */
  function Thirds(b: seq<byte>, k: nat): (r: seq<byte>)
    requires k < 3
    ensures |r| == (|b| + 2 - k) / 3
  {
    seq((|b| + 2 - k) / 3, i requires 0 <= i < (|b| + 2 - k) / 3 => b[3 * i + k])
  }

  /** Element `i` of an array that may stand for a longer one. */
  function Stretched<T>(s: seq<T>, i: nat): T
    requires |s| == 1 || i < |s|
  {
    if |s| == 1 then s[0] else s[i]
  }

  predicate Compatible(m: nat, n: nat) { m == n || m == 1 || n == 1 }

  function Zip(f: (int, int) -> int, a: seq<int>, b: seq<int>): Result<seq<int>>
  {
    if !Compatible(|a|, |b|) then Err("operands could not be broadcast together")
    else
      var n := if |a| == 1 then |b| else |a|;
      Ok(seq(n, i requires 0 <= i < n => f(Stretched(a, i), Stretched(b, i))))
  }

  /** Assignment of `v` to a slice of `n` elements. */
  function Fill(v: seq<int>, n: nat): Result<seq<int>>
  {
    if |v| != n && |v| != 1 then Err("could not broadcast input array")
    else Ok(seq(n, i requires 0 <= i < n => Stretched(v, i)))
  }

  lemma FillExact(v: seq<int>)
    ensures Fill(v, |v|) == Ok(v)
  {
    assert Fill(v, |v|).value == v;
  }

  function Interleave(a: seq<int>, b: seq<int>, n: nat): (r: seq<int>)
    requires |a| == |b| == (n + 1) / 2
    ensures |r| == n
  {
    seq(n, i requires 0 <= i < n => if i % 2 == 0 then a[i / 2] else b[i / 2])
  }

  /** `n` twelve-bit indices out of the columns of first, second and third bytes of the pairs. */
  function FromColumns(b0: seq<byte>, b1: seq<byte>, b2: seq<byte>, n: nat): Result<seq<int>>
  {
    var v0, v1 := Zip(Low12, b0, b1), Zip(High12, b1, b2);
    if v0.Err? then v0
    else if v1.Err? then v1
    else
      var even, odd := Fill(v0.value, (n + 1) / 2), Fill(v1.value, (n + 1) / 2);
      if even.Err? then even
      else if odd.Err? then odd
      else Ok(Interleave(even.value, odd.value, n))
  }

  function PairwiseUnpack(b: seq<byte>, n: nat): Result<seq<int>>
  {
    var packed := Clip(b, 0, (n + 1) / 2 * 3);
    FromColumns(Thirds(packed, 0), Thirds(packed, 1), Thirds(packed, 2), n)
  }

  lemma ZipEqual(f: (int, int) -> int, a: seq<int>, b: seq<int>)
    requires |a| == |b|
    ensures Zip(f, a, b).Ok? && |Zip(f, a, b).value| == |a|
    ensures forall i :: 0 <= i < |a| ==> Zip(f, a, b).value[i] == f(a[i], b[i])
  {
    forall i | 0 <= i < |a| ensures Zip(f, a, b).value[i] == f(a[i], b[i]) {
      assert Stretched(a, i) == a[i] && Stretched(b, i) == b[i];
    }
  }

  lemma InterleavedPairs(b: seq<byte>, n: nat, v0: seq<int>, v1: seq<int>)
    requires |b| == (n + 1) / 2 * 3 && |v0| == |v1| == (n + 1) / 2
    requires forall p :: 0 <= p < |v0| ==> v0[p] == Low12(b[3 * p], b[3 * p + 1])
    requires forall p :: 0 <= p < |v1| ==> v1[p] == High12(b[3 * p + 1], b[3 * p + 2])
    ensures Interleave(v0, v1, n) == Unpack12(b, n)
  {
    forall i | 0 <= i < n ensures Interleave(v0, v1, n)[i] == Unpack12(b, n)[i] {
      Half(i / 2, i % 2);
    }
  }

  lemma FullColumns(b0: seq<byte>, b1: seq<byte>, b2: seq<byte>, n: nat) returns (v0: seq<int>, v1: seq<int>)
    requires |b0| == |b1| == |b2| == (n + 1) / 2
    ensures |v0| == |v1| == (n + 1) / 2 && FromColumns(b0, b1, b2, n) == Ok(Interleave(v0, v1, n))
    ensures forall p :: 0 <= p < |v0| ==> v0[p] == Low12(b0[p], b1[p])
    ensures forall p :: 0 <= p < |v1| ==> v1[p] == High12(b1[p], b2[p])
  {
    ZipEqual(Low12, b0, b1);
    ZipEqual(High12, b1, b2);
    v0, v1 := Zip(Low12, b0, b1).value, Zip(High12, b1, b2).value;
    FillExact(v0);
    FillExact(v1);
  }

  lemma Columns(b: seq<byte>, m: nat)
    requires |b| == 3 * m
    ensures |Thirds(b, 0)| == |Thirds(b, 1)| == |Thirds(b, 2)| == m
    ensures forall p :: 0 <= p < m ==>
              Thirds(b, 0)[p] == b[3 * p] && Thirds(b, 1)[p] == b[3 * p + 1] && Thirds(b, 2)[p] == b[3 * p + 2]
  {
  }

  lemma UnpackWhole(b: seq<byte>, n: nat)
    requires |b| == (n + 1) / 2 * 3
    ensures PairwiseUnpack(b, n) == FromColumns(Thirds(b, 0), Thirds(b, 1), Thirds(b, 2), n)
  {
    assert Clip(b, 0, (n + 1) / 2 * 3) == b;
  }

  /** On the full number of bytes the indices are read in place. */
  lemma FullPairs(b: seq<byte>, n: nat)
    requires |b| == (n + 1) / 2 * 3
    ensures PairwiseUnpack(b, n) == Ok(Unpack12(b, n))
  {
    UnpackWhole(b, n);
    Columns(b, (n + 1) / 2);
    var v0, v1 := FullColumns(Thirds(b, 0), Thirds(b, 1), Thirds(b, 2), n);
    InterleavedPairs(b, n, v0, v1);
  }

  /** How many bytes of `pairs` pairs are enough for the unpacking not to raise. */
  predicate Tolerated(pairs: nat, bytes: int)
  {
    pairs >= 2 && (bytes == 3 || (pairs == 2 && 3 <= bytes <= 5))
  }

  /** Too few bytes raise an error, except one whole pair, or the second of two pairs with a byte or two missing. */
  lemma ShortPairs(b: seq<byte>, n: nat)
    requires |b| < (n + 1) / 2 * 3
    ensures PairwiseUnpack(b, n).Ok? <==> Tolerated((n + 1) / 2, |b|)
    ensures PairwiseUnpack(b, n).Ok? ==> |PairwiseUnpack(b, n).value| == n
  {
    var pairs := (n + 1) / 2;
    assert Clip(b, 0, 3 * pairs) == b;
    ThirdsCount(|b|, pairs);
  }

  /** The sizes of the three byte columns when bytes are missing. */
  lemma ThirdsCount(j: nat, pairs: nat)
    requires j < 3 * pairs
    ensures var n0, n1, n2 := (j + 2) / 3, (j + 1) / 3, j / 3;
            && n0 <= pairs && n2 < pairs && n2 <= n1 <= n0 <= n2 + 1
            && n0 + n1 + n2 == j
  {
  }

  lemma FiveColumns(b: seq<byte>)
    requires |b| == 5
    ensures Thirds(b, 0) == [b[0], b[3]] && Thirds(b, 1) == [b[1], b[4]] && Thirds(b, 2) == [b[2]]
  {
  }

  lemma InterleaveTwo(a: seq<int>, b: seq<int>, n: nat)
    requires |a| == |b| == 2 && 3 <= n <= 4
    ensures Interleave(a, b, n) == [a[0], b[0], a[1], b[1]][..n]
  {
  }

  lemma ZipPairs(f: (int, int) -> int, a0: int, a1: int, b0: int, b1: int)
    ensures Zip(f, [a0, a1], [b0, b1]) == Ok([f(a0, b0), f(a1, b1)])
  {
    var a, b := [a0, a1], [b0, b1];
    assert Stretched(a, 0) == a0 && Stretched(a, 1) == a1 && Stretched(b, 0) == b0 && Stretched(b, 1) == b1;
    var z := Zip(f, a, b).value;
    assert |z| == 2 && z[0] == f(Stretched(a, 0), Stretched(b, 0)) && z[1] == f(Stretched(a, 1), Stretched(b, 1));
    assert z == [f(a0, b0), f(a1, b1)];
  }

  lemma ZipPairWithOne(f: (int, int) -> int, a0: int, a1: int, b: int)
    ensures Zip(f, [a0, a1], [b]) == Ok([f(a0, b), f(a1, b)])
  {
    var a, c := [a0, a1], [b];
    assert Stretched(a, 0) == a0 && Stretched(a, 1) == a1 && Stretched(c, 0) == b && Stretched(c, 1) == b;
    var z := Zip(f, a, c).value;
    assert |z| == 2 && z[0] == f(Stretched(a, 0), Stretched(c, 0)) && z[1] == f(Stretched(a, 1), Stretched(c, 1));
    assert z == [f(a0, b), f(a1, b)];
  }

  /** Two pairs without their last byte: the third byte of the first pair stands in for it. */
  lemma FiveBytes(b: seq<byte>, n: nat)
    requires |b| == 5 && 3 <= n <= 4
    ensures PairwiseUnpack(b, n) ==
            Ok([Low12(b[0], b[1]), High12(b[1], b[2]), Low12(b[3], b[4]), High12(b[4], b[2])][..n])
  {
    FiveColumns(b);
    assert Clip(b, 0, 6) == b;
    var v0, v1 := [Low12(b[0], b[1]), Low12(b[3], b[4])], [High12(b[1], b[2]), High12(b[4], b[2])];
    ZipPairs(Low12, b[0], b[3], b[1], b[4]);
    ZipPairWithOne(High12, b[1], b[4], b[2]);
    FillExact(v0);
    FillExact(v1);
    InterleaveTwo(v0, v1, n);
  }

  /** Three or four indices as they come back without their last byte: the fourth keeps its low four bits only. */
  function Shortened(idx: seq<int>): seq<int>
    requires 3 <= |idx| <= 4
  {
    if |idx| == 3 then idx else idx[3 := idx[3] % 16 + idx[1] / 16 * 16]
  }

  lemma ShortenedIff(idx: seq<int>)
    requires 3 <= |idx| <= 4
    ensures Shortened(idx) == idx <==> |idx| == 3 || idx[1] / 16 == idx[3] / 16
  {
    assert |idx| == 4 ==> Shortened(idx)[3] == idx[3] % 16 + idx[1] / 16 * 16;
  }

  lemma FourthIndex(v1: int, v2: int, v3: int)
    requires 0 <= v1 < 4096 && 0 <= v2 < 4096 && 0 <= v3 < 4096
    ensures High12(PairByte(v2, v3, 1), PairByte(0, v1, 2)) == v3 % 16 + v1 / 16 * 16
  {
    assert (v2 / 256 + 16 * (v3 % 16)) / 16 == v3 % 16;
  }

  /** The bytes of two packed pairs, the last one dropped, give back all but the top of the fourth index. */
  lemma LastByteDropped(idx: seq<int>)
    requires 3 <= |idx| <= 4 && Below(idx, 4096)
    ensures |Pack12(idx)| == 6
    ensures PairwiseUnpack(Pack12(idx)[..5], |idx|) == Ok(Shortened(idx))
  {
    var b := Pack12(idx)[..5];
    FiveBytes(b, |idx|);
    FiveIndices(idx, b);
  }

  lemma FiveIndices(idx: seq<int>, b: seq<byte>)
    requires 3 <= |idx| <= 4 && Below(idx, 4096) && |Pack12(idx)| == 6 && b == Pack12(idx)[..5]
    ensures [Low12(b[0], b[1]), High12(b[1], b[2]), Low12(b[3], b[4]), High12(b[4], b[2])][..|idx|] == Shortened(idx)
  {
    PackedPair(idx, 0);
    PackedPair(idx, 1);
    PairFields(idx[0], idx[1]);
    PairFields(idx[2], At(idx, 3));
    FourthIndex(idx[1], idx[2], At(idx, 3));
  }
}
