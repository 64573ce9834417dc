/** Where each field of the wire format lies, byte by byte. */
module WireLayout {
  import opened Common
  import opened Bytes
  import opened SparseCodec
  import FR = Framing

  // ------------------------------------------------------------------------
  // The body of one tensor
  // ------------------------------------------------------------------------

  /** Where the packed values start, and where the packed indices start. */
  function ValuesAt(p: Payload): nat { 28 + 4 * |p.shape| + 4 * |p.scale| }

  function IndicesAt(p: Payload): nat { ValuesAt(p) + if LooksTwoBit(p.q) then (|p.q| + 3) / 4 else |p.q| }

  /** Twelve bits up to a chunk size of 2^12, sixteen up to 2^16, else thirty-two. */
  function IndexBits(chunkSize: nat): nat { if chunkSize > 65536 then 32 else if chunkSize > 4096 then 16 else 12 }

  lemma Parts(p: Payload, b: seq<byte>) returns (q: seq<byte>, idx: seq<byte>)
    requires EncodeOne(p) == Ok(b)
    ensures PackQ(p.q) == Ok(q) && PackIdx(p.idx, IndexBits(p.chunkSize)) == Ok(idx) && AllWords(HeaderFields(p))
    ensures b == Le32s(Header(p)) + Le32s(p.scale) + q + idx
    ensures |q| == IndicesAt(p) - ValuesAt(p) && |b| == IndicesAt(p) + |idx|
    ensures b[ValuesAt(p)..IndicesAt(p)] == q && b[IndicesAt(p)..] == idx
  {
    q, idx := PackQ(p.q).value, PackIdx(p.idx, IndexBits(p.chunkSize)).value;
    Slices(Le32s(Header(p)), Le32s(p.scale), q, idx, ValuesAt(p), IndicesAt(p));
  }

  lemma Slices(a: seq<byte>, s: seq<byte>, q: seq<byte>, idx: seq<byte>, i: nat, j: nat)
    requires i == |a| + |s| && j == i + |q|
    ensures (a + s + q + idx)[i..j] == q && (a + s + q + idx)[j..] == idx
  {
  }

  lemma HeaderHolds(p: Payload, q: seq<byte>, idx: seq<byte>, b: seq<byte>)
    requires AllWords(HeaderFields(p)) && b == Le32s(Header(p)) + Le32s(p.scale) + q + idx
    ensures HoldsWords(b, 0, Header(p)) && HoldsWords(b, 28 + 4 * |p.shape|, p.scale)
  {
    HeaderLength(p);
    TwoLists(Header(p), p.scale, q, idx, b, 28 + 4 * |p.shape|);
  }

  lemma HeaderLength(p: Payload)
    requires AllWords(HeaderFields(p))
    ensures 4 * |Header(p)| == 28 + 4 * |p.shape|
  {
  }

  lemma TwoLists(ws: seq<Word>, vs: seq<Word>, q: seq<byte>, idx: seq<byte>, b: seq<byte>, at: nat)
    requires b == Le32s(ws) + Le32s(vs) + q + idx && at == 4 * |ws|
    ensures HoldsWords(b, 0, ws) && HoldsWords(b, at, vs)
  {
    assert b == [] + Le32s(ws) + (Le32s(vs) + q + idx);
    assert b == Le32s(ws) + Le32s(vs) + (q + idx);
    WordsInside([], ws, Le32s(vs) + q + idx);
    WordsInside(Le32s(ws), vs, q + idx);
  }

  /** Seven little-endian words and the dimensions, then the scales. */
  ghost predicate HeaderIs(p: Payload, b: seq<byte>)
  {
    && |b| >= ValuesAt(p)
    && WordAt(b, 0) == (if LooksTwoBit(p.q) then 2 else 8) && WordAt(b, 4) == IndexBits(p.chunkSize)
    && WordAt(b, 8) == p.nChunks && WordAt(b, 12) == p.chunkSize && WordAt(b, 16) == p.k
    && WordAt(b, 20) == p.pad && WordAt(b, 24) == |p.shape|
    && WordsAt(b, 28, |p.shape|) == p.shape && WordsAt(b, 28 + 4 * |p.shape|, |p.scale|) == p.scale
  }

  lemma HeaderRead(p: Payload, b: seq<byte>)
    requires AllWords(HeaderFields(p)) && HoldsWords(b, 0, Header(p)) && HoldsWords(b, 28 + 4 * |p.shape|, p.scale)
    ensures HeaderIs(p, b)
  {
    HeaderWords(p, b);
    ReadWords(b, 28 + 4 * |p.shape|, p.scale);
  }

  lemma HeaderLayout(p: Payload, b: seq<byte>)
    requires EncodeOne(p) == Ok(b)
    ensures HeaderIs(p, b)
  {
    var q, idx := Parts(p, b);
    HeaderHolds(p, q, idx, b);
    HeaderRead(p, b);
  }

  lemma HeaderWords(p: Payload, b: seq<byte>)
    requires AllWords(HeaderFields(p)) && HoldsWords(b, 0, Header(p))
    ensures |b| >= 28 + 4 * |p.shape|
    ensures WordAt(b, 0) == (if LooksTwoBit(p.q) then 2 else 8) && WordAt(b, 4) == IndexBits(p.chunkSize)
    ensures WordAt(b, 8) == p.nChunks && WordAt(b, 12) == p.chunkSize && WordAt(b, 16) == p.k
    ensures WordAt(b, 20) == p.pad && WordAt(b, 24) == |p.shape|
    ensures WordsAt(b, 28, |p.shape|) == p.shape
  {
    var h := Header(p);
    assert WordIs(b, 0, h, 0) && WordIs(b, 0, h, 1) && WordIs(b, 0, h, 2) && WordIs(b, 0, h, 3);
    assert WordIs(b, 0, h, 4) && WordIs(b, 0, h, 5) && WordIs(b, 0, h, 6);
    forall i | 0 <= i < |p.shape| ensures WordAt(b, 28 + 4 * i) == p.shape[i] {
      assert WordIs(b, 0, h, 7 + i);
    }
  }

  /** The value of two bits of a byte, the lowest two first. */
  function Bits2(b: byte, r: nat): nat
  {
    if r == 0 then b % 4 else if r == 1 then b / 4 % 4 else if r == 2 then b / 16 % 4 else b / 64
  }

  /** Value `i` in its two bits. */
  predicate TwoBitsAt(b: seq<byte>, i: nat, v: int) { i / 4 < |b| && Bits2(b[i / 4], i % 4) == (v + 3) / 2 }

  lemma Packed2(q: seq<int>, i: nat)
    requires InTwoBitRange(q) && i < |q|
    ensures TwoBitsAt(Pack2(q), i, q[i])
  {
    PackedField(q, i / 4, i % 4);
  }

  /** Values that look two-bit lie four to a byte, the first in the lowest bits; others take a byte each. */
  lemma ValuesLayout(p: Payload, b: seq<byte>, i: nat)
    requires EncodeOne(p) == Ok(b) && i < |p.q|
    ensures IndicesAt(p) <= |b|
    ensures LooksTwoBit(p.q) ==> TwoBitsAt(b[ValuesAt(p)..IndicesAt(p)], i, p.q[i])
    ensures !LooksTwoBit(p.q) ==> b[ValuesAt(p)..IndicesAt(p)][i] == p.q[i] % 256
  {
    var q, idx := Parts(p, b);
    if LooksTwoBit(p.q) {
      Packed2(p.q, i);
    }
  }

  function Join(low: int, unit: int, high: int): int { low + unit * high }

  /** Index `i` in its twelve bits: two in three bytes, the first in the lowest bits. */
  predicate TwelveBitsAt(b: seq<byte>, i: nat, v: int)
  {
    var p := 3 * (i / 2);
    && p + 2 < |b|
    && v == if i % 2 == 0 then Join(b[p], 256, b[p + 1] % 16) else Join(b[p + 1] / 16, 16, b[p + 2])
  }

  /** Indices of twelve bits lie two in three bytes; wider ones in two or four bytes, the lowest first. */
  lemma IndexLayout(p: Payload, b: seq<byte>, i: nat)
    requires EncodeOne(p) == Ok(b) && i < |p.idx|
    ensures |b| >= IndicesAt(p)
    ensures var bytes, bits, n := b[IndicesAt(p)..], IndexBits(p.chunkSize), |p.idx|;
            && (bits == 12 ==> |bytes| == (n + 1) / 2 * 3 && TwelveBitsAt(bytes, i, p.idx[i]))
            && (bits == 16 ==> |bytes| == 2 * n && Join(bytes[2 * i], 256, bytes[2 * i + 1]) == p.idx[i])
            && (bits == 32 ==> |bytes| == 4 * n && WordAt(bytes, 4 * i) == p.idx[i])
  {
    var q, idx := Parts(p, b);
    PackedIndex(p.idx, IndexBits(p.chunkSize), idx, i);
  }

  lemma PackedIndex(idx: seq<int>, bits: nat, b: seq<byte>, i: nat)
    requires PackIdx(idx, bits) == Ok(b) && i < |idx| && bits in {12, 16, 32}
    ensures bits == 12 ==> |b| == (|idx| + 1) / 2 * 3 && TwelveBitsAt(b, i, idx[i])
    ensures bits == 16 ==> |b| == 2 * |idx| && Join(b[2 * i], 256, b[2 * i + 1]) == idx[i]
    ensures bits == 32 ==> |b| == 4 * |idx| && WordAt(b, 4 * i) == idx[i]
  {
    if bits == 12 {
      Packed12(idx, i);
    } else if bits == 16 {
      Packed16(idx, i);
    } else {
      Packed32(idx, i);
    }
  }

  lemma Packed12(idx: seq<int>, i: nat)
    requires Below(idx, 4096) && i < |idx|
    ensures TwelveBitsAt(Pack12(idx), i, idx[i])
  {
    PackedPair(idx, i / 2);
    PairFields(At(idx, 2 * (i / 2)), At(idx, 2 * (i / 2) + 1));
  }

  lemma Packed16(idx: seq<int>, i: nat)
    requires Below(idx, 65536) && i < |idx|
    ensures Join(Pack16(idx)[2 * i], 256, Pack16(idx)[2 * i + 1]) == idx[i]
  {
    assert (2 * i) / 2 == i && (2 * i + 1) / 2 == i;
  }

  lemma Packed32(idx: seq<int>, i: nat)
    requires Below(idx, 0x8000_0000) && i < |idx|
    ensures WordAt(Le32s(idx), 4 * i) == idx[i]
  {
    WordBytes(idx, i);
    FrontFourBytes(Le32s(idx), [], 4 * i, idx[i]);
    assert Le32s(idx) + [] == Le32s(idx);
  }

  // ------------------------------------------------------------------------
  // The container
  // ------------------------------------------------------------------------

  /** The encoded entries, one after another. */
  function Entries<P>(c: FR.Codec<P>, es: seq<FR.Entry<P>>): seq<byte>
    requires forall i :: 0 <= i < |es| ==> FR.EncodeEntry(c, es[i]).Ok?
  {
    if es == [] then [] else FR.EncodeEntry(c, es[0]).value + Entries(c, es[1..])
  }

  lemma {:induction false} EntriesFollow<P>(c: FR.Codec<P>, parts: seq<byte>, es: seq<FR.Entry<P>>)
    requires FR.EncodeFrom(c, parts, es).Ok?
    ensures forall i :: 0 <= i < |es| ==> FR.EncodeEntry(c, es[i]).Ok?
    ensures FR.EncodeFrom(c, parts, es).value == parts + Entries(c, es)
    decreases |es|
  {
    if es == [] {
      assert parts + [] == parts;
    } else {
      var b := FR.EncodeEntry(c, es[0]).value;
      EntriesFollow(c, parts + b, es[1..]);
      assert parts + b + Entries(c, es[1..]) == parts + (b + Entries(c, es[1..]));
      forall i | 0 <= i < |es| ensures FR.EncodeEntry(c, es[i]).Ok? {
        assert i > 0 ==> es[i] == es[1..][i - 1];
      }
    }
  }

  /** The letters SLCD, the version 1 and the number of entries; then the entries. */
  lemma ContainerLayout<P>(c: FR.Codec<P>, es: seq<FR.Entry<P>>, b: seq<byte>)
    requires FR.Encode(c, es) == Ok(b)
    ensures |b| >= 12 && b[..4] == [0x53, 0x4C, 0x43, 0x44] && WordAt(b, 4) == 1 && WordAt(b, 8) == |es|
    ensures forall i :: 0 <= i < |es| ==> FR.EncodeEntry(c, es[i]).Ok?
    ensures b[12..] == Entries(c, es)
  {
    EntriesFollow(c, FR.Prologue(|es|), es);
    FR.PrologueReads(|es|, b);
    assert b[..4] == FR.MAGIC;
  }

  /** An entry: the length of its name, the name, the length of its body, the body. */
  lemma EntryLayout<P>(c: FR.Codec<P>, e: FR.Entry<P>, b: seq<byte>)
    requires FR.EncodeEntry(c, e) == Ok(b)
    ensures c.enc(e.payload).Ok?
    ensures var body, n := c.enc(e.payload).value, |e.name|;
            && |b| == 8 + n + |body| && WordAt(b, 0) == n && b[4..4 + n] == e.name
            && WordAt(b, 4 + n) == |body| && b[8 + n..] == body
  {
    LengthsRead(e.name, c.enc(e.payload).value, b);
    FourSlices(Le32(|e.name|), e.name, Le32(|c.enc(e.payload).value|), c.enc(e.payload).value, b);
  }

  lemma LengthsRead(name: seq<byte>, body: seq<byte>, b: seq<byte>)
    requires IsWord(|name|) && IsWord(|body|) && b == Le32(|name|) + name + Le32(|body|) + body
    ensures WordAt(b, 0) == |name| && WordAt(b, 4 + |name|) == |body|
  {
    var n, m := Le32(|name|), Le32(|body|);
    assert b == [] + n + (name + m + body) && b == (n + name) + m + body;
    FR.WordInMiddle([], |name|, name + m + body);
    FR.WordInMiddle(n + name, |body|, body);
  }

  lemma FourSlices(l1: seq<byte>, name: seq<byte>, l2: seq<byte>, body: seq<byte>, b: seq<byte>)
    requires |l1| == |l2| == 4 && b == l1 + name + l2 + body
    ensures |b| == 8 + |name| + |body| && b[4..4 + |name|] == name && b[8 + |name|..] == body
  {
  }
}
