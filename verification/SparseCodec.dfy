/**
 The packed wire format of one sparse payload: a header of little-endian words, the
 chunk scales, the quantised values in two or eight bits, and the indices in 12,
 16 or 32 bits.
 */
module SparseCodec {
  import opened Common
  import opened Bytes
  import opened Broadcast

  /** One tensor: `nChunks` x `k` values and indices, one scale bit pattern per chunk. */
  datatype Payload = Payload(
    q: seq<int>, scale: seq<Word>, idx: seq<int>,
    nChunks: nat, k: nat, pad: nat, shape: seq<nat>, chunkSize: nat)

  /** The values that the encoder takes for two-bit quantised; 0 is among them. */
  predicate LooksTwoBit(q: seq<int>) { forall i :: 0 <= i < |q| ==> q[i] in {-3, -1, 0, 1, 3} }

  function ChooseBits(chunkSize: nat, twoBit: bool): (int, int)
  {
    (if twoBit then 2 else 8, if chunkSize <= 4096 then 12 else if chunkSize <= 65536 then 16 else 32)
  }

  /** Packing reports an error for an empty list (its maximum is undefined) and for a value out of range. */
  function PackIdx(idx: seq<int>, bits: int): Result<seq<byte>>
  {
    if bits == 32 then (if Below(idx, 0x8000_0000) then Ok(Le32s(idx)) else Err("not an int32 index"))
    else if |idx| == 0 then Err("maximum of an empty array")
    else if bits == 16 then (if Below(idx, 65536) then Ok(Pack16(idx)) else Err("idx values exceed 16-bit range"))
    else if Below(idx, 4096) then Ok(Pack12(idx)) else Err("idx values exceed 12-bit range")
  }

  function PackQ(q: seq<int>): Result<seq<byte>>
  {
    if LooksTwoBit(q) then Ok(Pack2(q))
    else if forall i :: 0 <= i < |q| ==> -128 <= q[i] <= 127 then
      Ok(seq(|q|, i requires 0 <= i < |q| => FromInt8(q[i])))
    else Err("not an int8 value")
  }

  /** The fixed part of the header: seven words, followed by the shape. */
  datatype Head = Head(bitsQ: int, bitsIdx: int, nChunks: nat, chunkSize: nat, k: nat, pad: nat, dim: nat)

  function HeadOf(p: Payload): Head
  {
    var (bitsQ, bitsIdx) := ChooseBits(p.chunkSize, LooksTwoBit(p.q));
    Head(bitsQ, bitsIdx, p.nChunks, p.chunkSize, p.k, p.pad, |p.shape|)
  }

  function HeaderFields(p: Payload): seq<int>
  {
    var h := HeadOf(p);
    [h.bitsQ, h.bitsIdx, h.nChunks, h.chunkSize, h.k, h.pad, h.dim] + p.shape
  }

  predicate AllWords(ns: seq<int>) { forall i :: 0 <= i < |ns| ==> IsWord(ns[i]) }

  function Header(p: Payload): seq<Word>
    requires AllWords(HeaderFields(p))
  {
    var f := HeaderFields(p);
    seq(|f|, i requires 0 <= i < |f| => f[i])
  }

  function EncodeOne(p: Payload): Result<seq<byte>>
  {
    var qs := PackQ(p.q);
    var idxs := PackIdx(p.idx, HeadOf(p).bitsIdx);
    if qs.Err? then qs
    else if idxs.Err? then idxs
    else if !AllWords(HeaderFields(p)) then Err("header field out of range")
    else Ok(Le32s(Header(p)) + Le32s(p.scale) + qs.value + idxs.value)
  }

  function QLength(bitsQ: int, n: nat): nat { if bitsQ == 2 then (n + 3) / 4 else n }

  function IdxLength(bitsIdx: int, n: nat): nat
  {
    if bitsIdx == 12 then (n + 1) / 2 * 3 else if bitsIdx == 16 then 2 * n else 4 * n
  }

  /** As many values as the bytes hold, and at most `n` of the two-bit ones. */
  function UnpackQ(b: seq<byte>, bitsQ: int, n: nat): seq<int>
  {
    if bitsQ == 2 then Unpack2(b, n) else seq(|b|, i requires 0 <= i < |b| => ToInt8(b[i]))
  }

  /** At most `n` indices; bytes that do not make up whole indices are an error. */
  function UnpackIdx(b: seq<byte>, bitsIdx: int, n: nat): Result<seq<int>>
  {
    if bitsIdx == 12 then PairwiseUnpack(b, n)
    else if bitsIdx == 16 then
      if |b| % 2 != 0 then Err("buffer size") else Ok(Unpack16(b, if n <= |b| / 2 then n else |b| / 2))
    else if bitsIdx == 32 then
      if |b| % 4 != 0 then Err("buffer size") else Ok(Unpack32(b, if n <= |b| / 4 then n else |b| / 4))
    else Err("unknown index width")
  }

  // Where the parts of a body lie, as the decoder works it out from the header.

  function Count(h: Head): nat { h.nChunks * h.k }

  function AtScale(h: Head): nat { 28 + 4 * h.dim }

  function AtQ(h: Head): nat { AtScale(h) + 4 * h.nChunks }

  function AtIdx(h: Head): nat { AtQ(h) + QLength(h.bitsQ, Count(h)) }

  function End(h: Head): nat { AtIdx(h) + IdxLength(h.bitsIdx, Count(h)) }

  function ReadHead(buf: seq<byte>): Head
    requires |buf| >= 28
  {
    Head(WordAt(buf, 0), WordAt(buf, 4), WordAt(buf, 8), WordAt(buf, 12), WordAt(buf, 16), WordAt(buf, 20),
      WordAt(buf, 24))
  }

  function ReadShape(buf: seq<byte>, dim: nat): seq<nat>
    requires 28 + 4 * dim <= |buf|
  {
    seq(dim, i requires 0 <= i < dim => WordAt(buf, 28 + 4 * i))
  }

  /**
   The payload and the number of bytes it should have taken. Trailing bytes are ignored. The header and the
   scales must be there; the values and indices are whatever their slices hold, as long as that can be
   arranged in `nChunks` rows of `k`.
   */
  function DecodeOne(buf: seq<byte>): Result<(Payload, nat)>
  {
    if |buf| < 28 then Err("short header")
    else
      var h := ReadHead(buf);
      if |buf| < AtQ(h) then Err("short shape or scales")
      else
        var q := UnpackQ(Clip(buf, AtQ(h), AtIdx(h)), h.bitsQ, Count(h));
        var idx := UnpackIdx(Clip(buf, AtIdx(h), End(h)), h.bitsIdx, Count(h));
        if idx.Err? then Err(idx.reason)
        else if |q| != Count(h) || |idx.value| != Count(h) then Err("cannot reshape")
        else
          Ok((Payload(q, WordsAt(buf, AtScale(h), h.nChunks), idx.value, h.nChunks, h.k, h.pad,
                      ReadShape(buf, h.dim), h.chunkSize), End(h)))
  }

  // ------------------------------------------------------------------------
  // Round trip of one payload
  // ------------------------------------------------------------------------

  /** A payload as the compressor makes it for a non-empty tensor. */
  predicate WellFormed(p: Payload)
  {
    && p.nChunks > 0 && p.k > 0
    && |p.q| == |p.idx| == p.nChunks * p.k && |p.scale| == p.nChunks
    && (forall i :: 0 <= i < |p.q| ==> -128 <= p.q[i] <= 127)
    && Below(p.idx, p.chunkSize) && Below(p.idx, 0x8000_0000)
    && IsWord(p.nChunks) && IsWord(p.k) && IsWord(p.pad) && IsWord(p.chunkSize) && IsWord(|p.shape|) &&
      AllWords(p.shape)
  }

  function ZerosToMinusOne(q: seq<int>): seq<int>
  {
    seq(|q|, i requires 0 <= i < |q| => if q[i] == 0 then -1 else q[i])
  }

  /** What comes back: in a tensor that looks two-bit, zeros turn into -1; otherwise nothing changes. */
  function Received(p: Payload): Payload
  {
    if LooksTwoBit(p.q) then p.(q := ZerosToMinusOne(p.q)) else p
  }

  lemma HeaderFits(p: Payload)
    requires WellFormed(p)
    ensures AllWords(HeaderFields(p))
  {
    var f := HeaderFields(p);
    forall i | 0 <= i < |f| ensures IsWord(f[i]) {
      assert i >= 7 ==> f[i] == p.shape[i - 7];
    }
  }

  lemma CountPositive(n: nat, k: nat)
    requires n > 0 && k > 0
    ensures n * k > 0
  {
  }

  lemma WellFormedEncodes(p: Payload)
    requires WellFormed(p)
    ensures EncodeOne(p).Ok?
    ensures PackQ(p.q).Ok? && PackIdx(p.idx, HeadOf(p).bitsIdx).Ok? && AllWords(HeaderFields(p))
  {
    HeaderFits(p);
    CountPositive(p.nChunks, p.k);
    assert PackIdx(p.idx, HeadOf(p).bitsIdx).Ok?;
    assert PackQ(p.q).Ok?;
  }

  lemma TwoBitRoundTrip(q: seq<int>)
    requires LooksTwoBit(q)
    ensures Unpack2(Pack2(q), |q|) == ZerosToMinusOne(q)
  {
    Unpack2Pack2(q);
    var back, want := Unpack2(Pack2(q), |q|), ZerosToMinusOne(q);
    forall i | 0 <= i < |q| ensures back[i] == want[i] {
      assert back[i] == Snap(q[i]);
    }
  }

  lemma QRoundTrip(p: Payload)
    requires WellFormed(p)
    ensures PackQ(p.q).Ok? && |PackQ(p.q).value| == QLength(HeadOf(p).bitsQ, |p.q|)
    ensures UnpackQ(PackQ(p.q).value, HeadOf(p).bitsQ, |p.q|) == Received(p).q
  {
    if LooksTwoBit(p.q) {
      TwoBitRoundTrip(p.q);
    } else {
      assert PackQ(p.q).Ok?;
      var b := PackQ(p.q).value;
      forall i | 0 <= i < |p.q| ensures ToInt8(b[i]) == p.q[i] {
        assert b[i] == FromInt8(p.q[i]);
      }
    }
  }

  lemma RoundTrip12(idx: seq<int>)
    requires Below(idx, 4096) && |idx| > 0
    ensures PackIdx(idx, 12) == Ok(Pack12(idx)) && UnpackIdx(Pack12(idx), 12, |idx|) == Ok(idx)
  {
    Unpack12Pack12(idx);
    FullPairs(Pack12(idx), |idx|);
  }

  lemma RoundTrip16(idx: seq<int>)
    requires Below(idx, 65536) && |idx| > 0
    ensures PackIdx(idx, 16) == Ok(Pack16(idx)) && UnpackIdx(Pack16(idx), 16, |idx|) == Ok(idx)
  {
    Unpack16Pack16(idx);
  }

  lemma RoundTripAt(idx: seq<int>, chunkSize: nat, bits: int)
    requires |idx| > 0 && Below(idx, chunkSize) && Below(idx, 0x8000_0000) && bits == ChooseBits(chunkSize, true).1
    ensures PackIdx(idx, bits).Ok? && |PackIdx(idx, bits).value| == IdxLength(bits, |idx|)
    ensures UnpackIdx(PackIdx(idx, bits).value, bits, |idx|) == Ok(idx)
  {
    if chunkSize <= 4096 {
      RoundTrip12(idx);
    } else if chunkSize <= 65536 {
      RoundTrip16(idx);
    } else {
      Unpack32Le32s(idx);
    }
  }

  lemma IdxRoundTrip(p: Payload)
    requires WellFormed(p)
    ensures PackIdx(p.idx, HeadOf(p).bitsIdx).Ok?
    ensures |PackIdx(p.idx, HeadOf(p).bitsIdx).value| == IdxLength(HeadOf(p).bitsIdx, |p.idx|)
    ensures UnpackIdx(PackIdx(p.idx, HeadOf(p).bitsIdx).value, HeadOf(p).bitsIdx, |p.idx|) == Ok(p.idx)
  {
    CountPositive(p.nChunks, p.k);
    RoundTripAt(p.idx, p.chunkSize, HeadOf(p).bitsIdx);
  }

  /** The header, read back from the front of a buffer that starts with it. */
  lemma HeaderReads(p: Payload, buf: seq<byte>)
    requires AllWords(HeaderFields(p)) && HoldsWords(buf, 0, Header(p))
    ensures |buf| >= 28 + 4 * |p.shape|
    ensures ReadHead(buf) == HeadOf(p) && ReadShape(buf, |p.shape|) == p.shape
  {
    var h := Header(p);
    assert WordIs(buf, 0, h, 0) && WordIs(buf, 0, h, 1) && WordIs(buf, 0, h, 2) && WordIs(buf, 0, h, 3);
    assert WordIs(buf, 0, h, 4) && WordIs(buf, 0, h, 5) && WordIs(buf, 0, h, 6);
    forall i | 0 <= i < |p.shape| ensures WordAt(buf, 28 + 4 * i) == p.shape[i] {
      assert WordIs(buf, 0, h, 7 + i);
    }
  }

  /** Decoding a buffer whose parts are known. */
  lemma DecodeParts(buf: seq<byte>, h: Head, p: Payload)
    requires |buf| >= 28 && ReadHead(buf) == h && AtQ(h) <= |buf| && |p.q| == |p.idx| == Count(h)
    requires (p.nChunks, p.chunkSize, p.k, p.pad, |p.shape|) == (h.nChunks, h.chunkSize, h.k, h.pad, h.dim)
    requires ReadShape(buf, h.dim) == p.shape && WordsAt(buf, AtScale(h), h.nChunks) == p.scale
    requires UnpackQ(Clip(buf, AtQ(h), AtIdx(h)), h.bitsQ, Count(h)) == p.q
    requires UnpackIdx(Clip(buf, AtIdx(h), End(h)), h.bitsIdx, Count(h)) == Ok(p.idx)
    ensures DecodeOne(buf) == Ok((p, End(h)))
  {
  }

  /** The three parts that follow the header, cut out of the buffer again. */
  lemma Cut(a: seq<byte>, b: seq<byte>, c: seq<byte>, d: seq<byte>, rest: seq<byte>)
    ensures var buf := a + b + c + d + rest;
            && buf == [] + a + (b + c + d + rest)
            && buf == a + b + (c + d + rest)
            && buf[|a| + |b|..|a| + |b| + |c|] == c
            && buf[|a| + |b| + |c|..|a| + |b| + |c| + |d|] == d
  {
  }

  /** The buffer starts with the header and scales of `p`, followed by the packed parts `c` and `d`. */
  ghost predicate LaidOut(p: Payload, buf: seq<byte>, c: seq<byte>, d: seq<byte>)
  {
    var h := HeadOf(p);
    && AllWords(HeaderFields(p)) && |p.scale| == p.nChunks && AtQ(h) <= |buf|
    && HoldsWords(buf, 0, Header(p)) && HoldsWords(buf, AtScale(h), p.scale)
    && Clip(buf, AtQ(h), AtIdx(h)) == c && Clip(buf, AtIdx(h), End(h)) == d
  }

  lemma BufferHolds(p: Payload, c: seq<byte>, d: seq<byte>, rest: seq<byte>)
    requires AllWords(HeaderFields(p))
    ensures var a, b := Le32s(Header(p)), Le32s(p.scale);
            HoldsWords(a + b + c + d + rest, 0, Header(p)) && HoldsWords(a + b + c + d + rest, |a|, p.scale)
  {
    var a, b := Le32s(Header(p)), Le32s(p.scale);
    Cut(a, b, c, d, rest);
    WordsInside([], Header(p), b + c + d + rest);
    WordsInside(a, p.scale, c + d + rest);
  }

  lemma ConcatLaidOut(p: Payload, a: seq<byte>, b: seq<byte>, c: seq<byte>, d: seq<byte>, rest: seq<byte>)
    requires AllWords(HeaderFields(p)) && |p.scale| == p.nChunks && |a| == AtScale(HeadOf(p)) && |b| == 4 * p.nChunks
    requires HoldsWords(a + b + c + d + rest, 0, Header(p)) && HoldsWords(a + b + c + d + rest, |a|, p.scale)
    requires |c| == QLength(HeadOf(p).bitsQ, Count(HeadOf(p))) && |d| == IdxLength(HeadOf(p).bitsIdx, Count(HeadOf(p)))
    ensures LaidOut(p, a + b + c + d + rest, c, d) && |a + b + c + d| == End(HeadOf(p))
  {
    Cut(a, b, c, d, rest);
  }

  lemma DecodeFrom(p: Payload, got: Payload, buf: seq<byte>, c: seq<byte>, d: seq<byte>)
    requires LaidOut(p, buf, c, d) && got == p.(q := got.q, idx := got.idx)
    requires |got.q| == |got.idx| == Count(HeadOf(p))
    requires UnpackQ(c, HeadOf(p).bitsQ, Count(HeadOf(p))) == got.q
    requires UnpackIdx(d, HeadOf(p).bitsIdx, Count(HeadOf(p))) == Ok(got.idx)
    ensures DecodeOne(buf) == Ok((got, End(HeadOf(p))))
  {
    HeaderReads(p, buf);
    ReadWords(buf, AtScale(HeadOf(p)), p.scale);
    DecodeParts(buf, HeadOf(p), got);
  }

  lemma EncodedLaidOut(p: Payload, rest: seq<byte>)
    requires WellFormed(p)
    ensures EncodeOne(p).Ok? && PackQ(p.q).Ok? && PackIdx(p.idx, HeadOf(p).bitsIdx).Ok?
    ensures LaidOut(p, EncodeOne(p).value + rest, PackQ(p.q).value, PackIdx(p.idx, HeadOf(p).bitsIdx).value)
    ensures |EncodeOne(p).value| == End(HeadOf(p))
  {
    WellFormedEncodes(p);
    QRoundTrip(p);
    IdxRoundTrip(p);
    var c, d := PackQ(p.q).value, PackIdx(p.idx, HeadOf(p).bitsIdx).value;
    BufferHolds(p, c, d, rest);
    ConcatLaidOut(p, Le32s(Header(p)), Le32s(p.scale), c, d, rest);
  }

  /**
   Every well-formed payload encodes; decoding gives back the payload up to zeros of two-bit
   tensors, and consumes the encoding to its last byte, whatever follows it.
   */
  lemma DecodeEncode(p: Payload, rest: seq<byte>)
    requires WellFormed(p)
    ensures EncodeOne(p).Ok?
    ensures DecodeOne(EncodeOne(p).value + rest) == Ok((Received(p), |EncodeOne(p).value|))
  {
    EncodedLaidOut(p, rest);
    QRoundTrip(p);
    IdxRoundTrip(p);
    DecodeFrom(p, Received(p), EncodeOne(p).value + rest, PackQ(p.q).value, PackIdx(p.idx, HeadOf(p).bitsIdx).value);
  }

  lemma ReceivedIsSent(p: Payload)
    ensures Received(p) == p <==> !(LooksTwoBit(p.q) && 0 in p.q)
  {
    var r := ZerosToMinusOne(p.q);
    if 0 in p.q {
      var i :| 0 <= i < |p.q| && p.q[i] == 0;
      assert r[i] == -1;
    } else {
      assert r == p.q;
    }
  }

  /** The exact condition for a lossless trip: the tensor does not look two-bit, or holds no zero. */
  lemma LosslessIff(p: Payload)
    requires WellFormed(p)
    ensures EncodeOne(p).Ok?
    ensures DecodeOne(EncodeOne(p).value) == Ok((p, |EncodeOne(p).value|)) <==> !(LooksTwoBit(p.q) && 0 in p.q)
  {
    DecodeEncode(p, []);
    assert EncodeOne(p).value + [] == EncodeOne(p).value;
    ReceivedIsSent(p);
  }

  /**
   A tensor without elements encodes exactly when its chunk size needs 32-bit indices and its header
   fields fit: the narrower packings take the maximum of an empty array.
   */
  lemma EmptyTensorEncodesIff(p: Payload)
    requires |p.q| == 0 && |p.idx| == 0
    ensures EncodeOne(p).Ok? <==> p.chunkSize > 65536 && AllWords(HeaderFields(p))
  {
    assert LooksTwoBit(p.q);
  }

  // ------------------------------------------------------------------------
  // Truncated bodies
  // ------------------------------------------------------------------------

  lemma WordsInPrefix(b: seq<byte>, t: nat, pos: nat, ws: seq<Word>)
    requires HoldsWords(b, pos, ws) && pos + 4 * |ws| <= t <= |b|
    ensures HoldsWords(b[..t], pos, ws)
  {
    forall i | 0 <= i < |ws| ensures WordIs(b[..t], pos, ws, i) {
      assert WordIs(b, pos, ws, i);
    }
  }

  /** A prefix that still holds header and scales holds the front of the values and of the indices. */
  lemma PrefixLaidOut(p: Payload, buf: seq<byte>, c: seq<byte>, d: seq<byte>, t: nat)
    requires LaidOut(p, buf, c, d) && |buf| == End(HeadOf(p)) && AtQ(HeadOf(p)) <= t < |buf|
    ensures LaidOut(p, buf[..t], Clip(c, 0, Left(t, AtQ(HeadOf(p)))), Clip(d, 0, Left(t, AtIdx(HeadOf(p)))))
  {
    var h := HeadOf(p);
    WordsInPrefix(buf, t, 0, Header(p));
    WordsInPrefix(buf, t, AtScale(h), p.scale);
    ClipPrefix(buf, t, AtQ(h), AtIdx(h));
    ClipPrefix(buf, t, AtIdx(h), End(h));
  }

  /** What decoding makes of a buffer with known parts, good or bad. */
  lemma DecodesIff(p: Payload, buf: seq<byte>, c: seq<byte>, d: seq<byte>)
    requires LaidOut(p, buf, c, d)
    ensures var n, idx := Count(HeadOf(p)), UnpackIdx(d, HeadOf(p).bitsIdx, Count(HeadOf(p)));
            DecodeOne(buf).Ok? <==> |UnpackQ(c, HeadOf(p).bitsQ, n)| == n && idx.Ok? && |idx.value| == n
  {
    HeaderReads(p, buf);
  }

  lemma ShortQ(c: seq<byte>, bitsQ: int, n: nat)
    requires |c| <= QLength(bitsQ, n)
    ensures |UnpackQ(c, bitsQ, n)| == n <==> |c| == QLength(bitsQ, n)
  {
  }

  lemma ShortIdx(d: seq<byte>, bitsIdx: int, n: nat)
    requires |d| < IdxLength(bitsIdx, n) && bitsIdx in {12, 16, 32}
    ensures var idx := UnpackIdx(d, bitsIdx, n);
            idx.Ok? && |idx.value| == n <==> bitsIdx == 12 && Tolerated((n + 1) / 2, |d|)
  {
    if bitsIdx == 12 {
      ShortPairs(d, n);
    }
  }

  /** The bytes of its index part that a body cut to `t` bytes still has; negative when the cut is before it. */
  function IndexBytesLeft(p: Payload, t: nat): int { t - AtIdx(HeadOf(p)) }

  /** A cut after which a body is still accepted. */
  predicate CutAccepted(p: Payload, t: nat)
  {
    p.chunkSize <= 4096 && Tolerated((p.nChunks * p.k + 1) / 2, IndexBytesLeft(p, t))
  }

  lemma WordInPrefix(buf: seq<byte>, t: nat, pos: nat)
    requires pos + 4 <= t <= |buf|
    ensures WordAt(buf[..t], pos) == WordAt(buf, pos)
  {
  }

  lemma HeadInPrefix(buf: seq<byte>, t: nat)
    requires 28 <= t <= |buf|
    ensures ReadHead(buf[..t]) == ReadHead(buf)
  {
    WordInPrefix(buf, t, 0);
    WordInPrefix(buf, t, 4);
    WordInPrefix(buf, t, 8);
    WordInPrefix(buf, t, 12);
    WordInPrefix(buf, t, 16);
    WordInPrefix(buf, t, 20);
    WordInPrefix(buf, t, 24);
  }

  lemma NoScalesNoPayload(buf: seq<byte>)
    requires |buf| >= 28 ==> |buf| < AtQ(ReadHead(buf))
    ensures DecodeOne(buf).Err?
  {
  }

  lemma ShortHeader(p: Payload, buf: seq<byte>, t: nat)
    requires AllWords(HeaderFields(p)) && HoldsWords(buf, 0, Header(p)) && t <= |buf| && t < AtQ(HeadOf(p))
    ensures DecodeOne(buf[..t]).Err?
  {
    HeaderReads(p, buf);
    if t >= 28 {
      HeadInPrefix(buf, t);
    }
    NoScalesNoPayload(buf[..t]);
  }

  /** The packed parts of an encoded payload. */
  lemma EncodedParts(p: Payload, buf: seq<byte>) returns (c: seq<byte>, d: seq<byte>)
    requires WellFormed(p) && EncodeOne(p) == Ok(buf)
    ensures LaidOut(p, buf, c, d) && |buf| == End(HeadOf(p)) && HeadOf(p).bitsIdx in {12, 16, 32}
    ensures |c| == QLength(HeadOf(p).bitsQ, Count(HeadOf(p))) && |d| == IdxLength(HeadOf(p).bitsIdx, Count(HeadOf(p)))
  {
    EncodedLaidOut(p, []);
    assert buf + [] == buf;
    QRoundTrip(p);
    IdxRoundTrip(p);
    c, d := PackQ(p.q).value, PackIdx(p.idx, HeadOf(p).bitsIdx).value;
  }

  lemma ShortParts(p: Payload, buf: seq<byte>, c: seq<byte>, d: seq<byte>, t: nat)
    requires LaidOut(p, buf, c, d) && |buf| == End(HeadOf(p)) && HeadOf(p).bitsIdx in {12, 16, 32}
    requires |c| == QLength(HeadOf(p).bitsQ, Count(HeadOf(p))) && |d| == IdxLength(HeadOf(p).bitsIdx, Count(HeadOf(p)))
    requires AtQ(HeadOf(p)) <= t < |buf|
    ensures DecodeOne(buf[..t]).Ok? <==> CutAccepted(p, t)
  {
    var h, n := HeadOf(p), Count(HeadOf(p));
    var c', d' := Clip(c, 0, Left(t, AtQ(h))), Clip(d, 0, Left(t, AtIdx(h)));
    PrefixLaidOut(p, buf, c, d, t);
    DecodesIff(p, buf[..t], c', d');
    ShortQ(c', h.bitsQ, n);
    ShortIdx(d', h.bitsIdx, n);
  }

  /**
   Truncation is not always noticed. A strict prefix of an encoded tensor decodes exactly when the
   indices are twelve bits wide, fill at least two pairs, and one whole pair is left of them,
   or there are two pairs of which the second lacks a byte or two.
   */
  lemma PrefixDecodesIff(p: Payload, t: nat)
    requires WellFormed(p) && EncodeOne(p).Ok? && t < |EncodeOne(p).value|
    ensures DecodeOne(EncodeOne(p).value[..t]).Ok? <==> CutAccepted(p, t)
  {
    var buf := EncodeOne(p).value;
    var c, d := EncodedParts(p, buf);
    if t < AtQ(HeadOf(p)) {
      ShortHeader(p, buf, t);
    } else {
      ShortParts(p, buf, c, d, t);
    }
  }

  lemma LastByteLaidOut(p: Payload, body: seq<byte>, c: seq<byte>, d: seq<byte>)
    requires WellFormed(p) && EncodeOne(p) == Ok(body) && p.chunkSize <= 4096
    requires PackQ(p.q) == Ok(c) && d == Pack12(p.idx) && |d| == 6
    ensures |body| == End(HeadOf(p)) > 0 && LaidOut(p, body[..|body| - 1], c, d[..5])
  {
    var h, t := HeadOf(p), |body| - 1;
    EncodedLaidOut(p, []);
    assert body + [] == body;
    QRoundTrip(p);
    PrefixLaidOut(p, body, c, d, t);
    assert Clip(c, 0, Left(t, AtQ(h))) == c && Clip(d, 0, Left(t, AtIdx(h))) == d[..5];
  }

  /**
   Three or four twelve-bit indices without their last byte decode: three to the payload itself, four to
   the payload with the fourth index taken modulo 16 and the rest of it from the second index.
   */
  lemma LastByteMissing(p: Payload, body: seq<byte>)
    requires WellFormed(p) && EncodeOne(p) == Ok(body) && p.chunkSize <= 4096 && 3 <= |p.idx| <= 4
    ensures |body| > 0 && DecodeOne(body[..|body| - 1]) == Ok((Received(p).(idx := Shortened(p.idx)), |body|))
    ensures Shortened(p.idx) == p.idx <==> |p.idx| == 3 || p.idx[1] / 16 == p.idx[3] / 16
  {
    ShortenedIff(p.idx);
    QRoundTrip(p);
    LastByteDropped(p.idx);
    var c, d := PackQ(p.q).value, Pack12(p.idx);
    LastByteLaidOut(p, body, c, d);
    DecodeFrom(p, Received(p).(idx := Shortened(p.idx)), body[..|body| - 1], c, d[..5]);
  }

  /** One chunk of 4096 elements with the entries 0, 1, 2 and 19. */
  lemma FourEntries(scale: Word) returns (p: Payload)
    ensures WellFormed(p) && p.chunkSize == 4096 && p.idx == [0, 1, 2, 19]
    ensures Received(p) == p && Shortened(p.idx) == [0, 1, 2, 3]
  {
    p := Payload([3, 1, 1, 1], [scale], [0, 1, 2, 19], 1, 4, 0, [4096], 4096);
    ReceivedIsSent(p);
  }

  /** A tensor that loses its last byte on the way and arrives with another fourth index, without an error. */
  lemma WrongIndexAccepted(scale: Word) returns (p: Payload, body: seq<byte>)
    ensures p.idx == [0, 1, 2, 19] && EncodeOne(p) == Ok(body)
    ensures |body| > 0 && DecodeOne(body[..|body| - 1]) == Ok((p.(idx := [0, 1, 2, 3]), |body|))
  {
    p := FourEntries(scale);
    WellFormedEncodes(p);
    body := EncodeOne(p).value;
    LastByteMissing(p, body);
  }
}
