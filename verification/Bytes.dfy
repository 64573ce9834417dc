/** Little-endian words and the bit-field packers of the sparse wire codec. */
module Bytes {

  type byte = b: int | 0 <= b < 256

  /** An unsigned 32-bit word; also the bit pattern of a float32. */
  type Word = w: int | 0 <= w < 0x1_0000_0000

  predicate IsWord(n: int) { 0 <= n < 0x1_0000_0000 }

  function Le32(w: Word): (b: seq<byte>)
    ensures |b| == 4
  {
    [w % 256, (w / 256) % 256, (w / 65536) % 256, w / 16777216]
  }

  function FromBytes(b0: int, b1: int, b2: int, b3: int): int { b0 + 256 * b1 + 65536 * b2 + 16777216 * b3 }

  function WordAt(b: seq<byte>, pos: nat): Word
    requires pos + 4 <= |b|
  {
    FromBytes(b[pos], b[pos + 1], b[pos + 2], b[pos + 3])
  }

  function Le32s(ws: seq<Word>): (b: seq<byte>)
    ensures |b| == 4 * |ws|
  {
    seq(4 * |ws|, i requires 0 <= i < 4 * |ws| => Le32(ws[i / 4])[i % 4])
  }

  function WordsAt(b: seq<byte>, pos: nat, n: nat): (ws: seq<Word>)
    requires pos + 4 * n <= |b|
    ensures |ws| == n
  {
    seq(n, i requires 0 <= i < n => WordAt(b, pos + 4 * i))
  }

  lemma Le32RoundTrip(w: Word)
    ensures FromBytes(w % 256, (w / 256) % 256, (w / 65536) % 256, w / 16777216) == w
  {
    var a, b := w / 256, w / 65536;
    assert b == a / 256 && w / 16777216 == b / 256;
  }

  lemma Quarter(i: nat, k: nat)
    requires k < 4
    ensures (4 * i + k) / 4 == i && (4 * i + k) % 4 == k
  {
  }

  lemma ByteOfWord(ws: seq<Word>, i: nat, k: nat)
    requires i < |ws| && k < 4
    ensures Le32s(ws)[4 * i + k] == Le32(ws[i])[k]
  {
    Quarter(i, k);
  }

  /** The four bytes from `at` are those of the word `w`. */
  predicate FourBytes(b: seq<byte>, at: nat, w: Word)
    requires at + 4 <= |b|
  {
    b[at] == w % 256 && b[at + 1] == (w / 256) % 256 && b[at + 2] == (w / 65536) % 256 && b[at + 3] == w / 16777216
  }

  lemma ReadFourBytes(pre: seq<byte>, enc: seq<byte>, post: seq<byte>, at: nat, w: Word)
    requires at + 4 <= |enc| && FourBytes(enc, at, w)
    ensures WordAt(pre + enc + post, |pre| + at) == w
  {
    var b := pre + enc + post;
    assert b[|pre| + at] == enc[at] && b[|pre| + at + 1] == enc[at + 1];
    assert b[|pre| + at + 2] == enc[at + 2] && b[|pre| + at + 3] == enc[at + 3];
    Le32RoundTrip(w);
  }

  lemma FrontFourBytes(enc: seq<byte>, post: seq<byte>, at: nat, w: Word)
    requires at + 4 <= |enc| && FourBytes(enc, at, w)
    ensures WordAt(enc + post, at) == w
  {
    var b := enc + post;
    assert b[at] == enc[at] && b[at + 1] == enc[at + 1] && b[at + 2] == enc[at + 2] && b[at + 3] == enc[at + 3];
    Le32RoundTrip(w);
  }

  lemma WordBytes(ws: seq<Word>, i: nat)
    requires i < |ws|
    ensures FourBytes(Le32s(ws), 4 * i, ws[i])
  {
    ByteOfWord(ws, i, 0);
    ByteOfWord(ws, i, 1);
    ByteOfWord(ws, i, 2);
    ByteOfWord(ws, i, 3);
  }

  lemma WordInside(pre: seq<byte>, ws: seq<Word>, post: seq<byte>, i: nat)
    requires i < |ws|
    ensures WordAt(pre + Le32s(ws) + post, |pre| + 4 * i) == ws[i]
  {
    WordBytes(ws, i);
    ReadFourBytes(pre, Le32s(ws), post, 4 * i, ws[i]);
  }

  predicate WordIs(b: seq<byte>, pos: nat, ws: seq<Word>, i: nat)
    requires pos + 4 * |ws| <= |b| && i < |ws|
  {
    WordAt(b, pos + 4 * i) == ws[i]
  }

  ghost predicate HoldsWords(b: seq<byte>, pos: nat, ws: seq<Word>)
  {
    pos + 4 * |ws| <= |b| && forall i :: 0 <= i < |ws| ==> WordIs(b, pos, ws, i)
  }

  lemma ReadWords(b: seq<byte>, pos: nat, ws: seq<Word>)
    requires HoldsWords(b, pos, ws)
    ensures WordsAt(b, pos, |ws|) == ws
  {
    forall i | 0 <= i < |ws| ensures WordAt(b, pos + 4 * i) == ws[i] {
      assert WordIs(b, pos, ws, i);
    }
  }

  lemma WordsInside(pre: seq<byte>, ws: seq<Word>, post: seq<byte>)
    ensures HoldsWords(pre + Le32s(ws) + post, |pre|, ws)
  {
    forall i | 0 <= i < |ws| ensures WordIs(pre + Le32s(ws) + post, |pre|, ws, i) {
      WordInside(pre, ws, post, i);
    }
  }

  // ------------------------------------------------------------------------
  // Two bits per value: -3, -1, 1, 3 become 0, 1, 2, 3, four to a byte
  // ------------------------------------------------------------------------

  predicate InTwoBitRange(q: seq<int>) { forall i :: 0 <= i < |q| ==> -3 <= q[i] <= 3 }

  function Code(q: seq<int>, i: nat): (c: int)
    requires InTwoBitRange(q)
    ensures 0 <= c < 4
  {
    if i < |q| then (q[i] + 3) / 2 else 0
  }

  function FourCodes(c0: int, c1: int, c2: int, c3: int): byte
    requires 0 <= c0 < 4 && 0 <= c1 < 4 && 0 <= c2 < 4 && 0 <= c3 < 4
  {
    c0 + 4 * c1 + 16 * c2 + 64 * c3
  }

  function Pack2(q: seq<int>): (b: seq<byte>)
    requires InTwoBitRange(q)
    ensures |b| == (|q| + 3) / 4
  {
    seq((|q| + 3) / 4, i requires 0 <= i < (|q| + 3) / 4 =>
      FourCodes(Code(q, 4 * i), Code(q, 4 * i + 1), Code(q, 4 * i + 2), Code(q, 4 * i + 3)))
  }

  function Field2(b: byte, r: nat): (c: int)
    ensures 0 <= c < 4
  {
    if r == 0 then b % 4 else if r == 1 then (b / 4) % 4 else if r == 2 then (b / 16) % 4 else (b / 64) % 4
  }

  function Unpack2(b: seq<byte>, n: nat): (q: seq<int>)
    ensures |q| == if n <= 4 * |b| then n else 4 * |b|
  {
    var m := if n <= 4 * |b| then n else 4 * |b|;
    seq(m, i requires 0 <= i < m => 2 * Field2(b[i / 4], i % 4) - 3)
  }

  /** The value that a packed value comes back as: the nearest code, with 0 landing on -1. */
  function Snap(v: int): int { 2 * ((v + 3) / 2) - 3 }

  lemma FieldOfCodes(c0: int, c1: int, c2: int, c3: int)
    requires 0 <= c0 < 4 && 0 <= c1 < 4 && 0 <= c2 < 4 && 0 <= c3 < 4
    ensures var b := FourCodes(c0, c1, c2, c3);
            Field2(b, 0) == c0 && Field2(b, 1) == c1 && Field2(b, 2) == c2 && Field2(b, 3) == c3
  {
    var b: int := c0 + 4 * c1 + 16 * c2 + 64 * c3;
    assert b / 4 == c1 + 4 * c2 + 16 * c3;
    assert b / 16 == c2 + 4 * c3;
    assert b / 64 == c3;
  }

  lemma PackedField(q: seq<int>, p: nat, r: nat)
    requires InTwoBitRange(q) && r < 4 && 4 * p + r < |q|
    ensures p < |Pack2(q)| && Field2(Pack2(q)[p], r) == Code(q, 4 * p + r)
  {
    FieldOfCodes(Code(q, 4 * p), Code(q, 4 * p + 1), Code(q, 4 * p + 2), Code(q, 4 * p + 3));
  }

  lemma UnpackField(q: seq<int>, b: seq<byte>, i: nat)
    requires InTwoBitRange(q) && |b| == (|q| + 3) / 4 && i < |q| && Field2(b[i / 4], i % 4) == Code(q, i)
    ensures Unpack2(b, |q|)[i] == Snap(q[i])
  {
  }

  lemma UnpackedAt(q: seq<int>, b: seq<byte>, i: nat, p: nat, r: nat)
    requires InTwoBitRange(q) && b == Pack2(q) && i < |q| && p == i / 4 && r == i % 4
    ensures Unpack2(b, |q|)[i] == Snap(q[i])
  {
    assert i == 4 * p + r;
    PackedField(q, p, r);
    UnpackField(q, b, i);
  }

  lemma Unpack2Pack2(q: seq<int>)
    requires InTwoBitRange(q)
    ensures |Unpack2(Pack2(q), |q|)| == |q|
    ensures forall i :: 0 <= i < |q| ==> Unpack2(Pack2(q), |q|)[i] == Snap(q[i])
  {
    forall i | 0 <= i < |q| ensures Unpack2(Pack2(q), |q|)[i] == Snap(q[i]) {
      UnpackedAt(q, Pack2(q), i, i / 4, i % 4);
    }
  }

  // ------------------------------------------------------------------------
  // Indices: twelve bits (two in three bytes), sixteen or thirty-two
  // ------------------------------------------------------------------------

  predicate Below(idx: seq<int>, bound: int) { forall i :: 0 <= i < |idx| ==> 0 <= idx[i] < bound }

  function At(idx: seq<int>, i: nat): int { if i < |idx| then idx[i] else 0 }

  /** Byte `k` of the three that hold the values `v0` and `v1`. */
  function PairByte(v0: int, v1: int, k: nat): byte
    requires 0 <= v0 < 4096 && 0 <= v1 < 4096
  {
    if k == 0 then v0 % 256 else if k == 1 then v0 / 256 + 16 * (v1 % 16) else v1 / 16
  }

  function Pack12(idx: seq<int>): (b: seq<byte>)
    requires Below(idx, 4096)
    ensures |b| == (|idx| + 1) / 2 * 3
  {
    seq((|idx| + 1) / 2 * 3, i requires 0 <= i < (|idx| + 1) / 2 * 3 =>
      PairByte(At(idx, 2 * (i / 3)), At(idx, 2 * (i / 3) + 1), i % 3))
  }

  function Low12(b0: int, b1: int): int { b0 + 256 * (b1 % 16) }

  function High12(b1: int, b2: int): int { b1 / 16 + 16 * b2 }

  function Unpack12(b: seq<byte>, n: nat): (idx: seq<int>)
    requires |b| >= (n + 1) / 2 * 3
    ensures |idx| == n
  {
    seq(n, i requires 0 <= i < n =>
      var p := 3 * (i / 2);
      if i % 2 == 0 then Low12(b[p], b[p + 1]) else High12(b[p + 1], b[p + 2]))
  }

  lemma PairFields(v0: int, v1: int)
    requires 0 <= v0 < 4096 && 0 <= v1 < 4096
    ensures Low12(PairByte(v0, v1, 0), PairByte(v0, v1, 1)) == v0
    ensures High12(PairByte(v0, v1, 1), PairByte(v0, v1, 2)) == v1
  {
    assert (v0 / 256 + 16 * (v1 % 16)) / 16 == v1 % 16;
  }

  lemma Third(p: nat, k: nat)
    requires k < 3
    ensures (3 * p + k) / 3 == p && (3 * p + k) % 3 == k
  {
  }

  lemma PackedByte(idx: seq<int>, p: nat, k: nat)
    requires Below(idx, 4096) && 2 * p < |idx| && k < 3
    ensures 3 * p + k < |Pack12(idx)|
    ensures Pack12(idx)[3 * p + k] == PairByte(At(idx, 2 * p), At(idx, 2 * p + 1), k)
  {
    Third(p, k);
  }

  lemma Half(p: nat, r: nat)
    requires r < 2
    ensures (2 * p + r) / 2 == p && (2 * p + r) % 2 == r
  {
  }

  /** The three bytes at place `p` hold `v0` and `v1`. */
  predicate PairAt(b: seq<byte>, p: nat, v0: int, v1: int)
    requires 0 <= v0 < 4096 && 0 <= v1 < 4096 && 3 * p + 2 < |b|
  {
    b[3 * p] == PairByte(v0, v1, 0) && b[3 * p + 1] == PairByte(v0, v1, 1) && b[3 * p + 2] == PairByte(v0, v1, 2)
  }

  lemma PackedPair(idx: seq<int>, p: nat)
    requires Below(idx, 4096) && 2 * p < |idx|
    ensures 3 * p + 2 < |Pack12(idx)| && PairAt(Pack12(idx), p, At(idx, 2 * p), At(idx, 2 * p + 1))
  {
    PackedByte(idx, p, 0);
    PackedByte(idx, p, 1);
    PackedByte(idx, p, 2);
  }

  lemma UnpackPair(b: seq<byte>, n: nat, p: nat, r: nat, v0: int, v1: int)
    requires 0 <= v0 < 4096 && 0 <= v1 < 4096 && r < 2 && 2 * p + r < n && |b| == (n + 1) / 2 * 3
    requires 3 * p + 2 < |b| && PairAt(b, p, v0, v1)
    ensures Unpack12(b, n)[2 * p + r] == if r == 0 then v0 else v1
  {
    PairFields(v0, v1);
    Half(p, r);
  }

  lemma UnpackPairs(idx: seq<int>, b: seq<byte>)
    requires Below(idx, 4096) && |b| == (|idx| + 1) / 2 * 3
    requires forall p: nat :: 2 * p < |idx| ==> PairAt(b, p, At(idx, 2 * p), At(idx, 2 * p + 1))
    ensures Unpack12(b, |idx|) == idx
  {
    var back := Unpack12(b, |idx|);
    forall i | 0 <= i < |idx| ensures back[i] == idx[i] {
      var p, r := i / 2, i % 2;
      UnpackPair(b, |idx|, p, r, At(idx, 2 * p), At(idx, 2 * p + 1));
      assert i == 2 * p + r;
    }
  }

  lemma Unpack12Pack12(idx: seq<int>)
    requires Below(idx, 4096)
    ensures Unpack12(Pack12(idx), |idx|) == idx
  {
    var b := Pack12(idx);
    forall p: nat | 2 * p < |idx| ensures PairAt(b, p, At(idx, 2 * p), At(idx, 2 * p + 1)) {
      PackedPair(idx, p);
    }
    UnpackPairs(idx, b);
  }

  function Pack16(idx: seq<int>): (b: seq<byte>)
    requires Below(idx, 65536)
    ensures |b| == 2 * |idx|
  {
    seq(2 * |idx|, i requires 0 <= i < 2 * |idx| => if i % 2 == 0 then idx[i / 2] % 256 else idx[i / 2] / 256)
  }

  function Unpack16(b: seq<byte>, n: nat): (idx: seq<int>)
    requires |b| >= 2 * n
    ensures |idx| == n
  {
    seq(n, i requires 0 <= i < n => FromBytes(b[2 * i], b[2 * i + 1], 0, 0))
  }

  lemma Unpack16Pack16(idx: seq<int>)
    requires Below(idx, 65536)
    ensures Unpack16(Pack16(idx), |idx|) == idx
  {
    forall i | 0 <= i < |idx| ensures Unpack16(Pack16(idx), |idx|)[i] == idx[i] {
      assert (2 * i) / 2 == i && (2 * i + 1) / 2 == i;
    }
  }

  /** A signed word in two's complement. */
  function ToInt32(w: Word): int { if w < 0x8000_0000 then w else w - 0x1_0000_0000 }

  function Unpack32(b: seq<byte>, n: nat): (idx: seq<int>)
    requires |b| >= 4 * n
    ensures |idx| == n
  {
    seq(n, i requires 0 <= i < n => ToInt32(WordAt(b, 4 * i)))
  }

  lemma Unpack32Le32s(idx: seq<Word>)
    requires Below(idx, 0x8000_0000)
    ensures Unpack32(Le32s(idx), |idx|) == idx
  {
    WordsInside([], idx, []);
    assert [] + Le32s(idx) + [] == Le32s(idx);
    ReadWords(Le32s(idx), 0, idx);
    forall i | 0 <= i < |idx| ensures Unpack32(Le32s(idx), |idx|)[i] == idx[i] {
      assert WordsAt(Le32s(idx), 0, |idx|)[i] == WordAt(Le32s(idx), 4 * i);
    }
  }

  /** A signed byte in two's complement. */
  function FromInt8(v: int): byte requires -128 <= v <= 127 { if v < 0 then v + 256 else v }

  function ToInt8(b: byte): (v: int)
    ensures -128 <= v <= 127
  {
    if b >= 128 then b - 256 else b
  }
}
