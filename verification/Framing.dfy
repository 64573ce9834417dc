/**
 The container of named payloads: a magic number, a version, a count, and for every
 entry its name and its encoded body, each preceded by a length. The codec of one
 body is a parameter.
 */
module Framing {
  import opened Common
  import opened Bytes

  /** How one payload is written and read. */
  datatype Codec<!P> = Codec(enc: P -> Result<seq<byte>>, dec: seq<byte> -> Result<P>)

  /** A tensor name as the bytes of its UTF-8 form. */
  type Name = seq<byte>

  const MAGIC: seq<byte> := [0x53, 0x4C, 0x43, 0x44]
  const VERSION: Word := 1

  datatype Entry<P> = Entry(name: Name, payload: P)

  function EncodeEntry<P>(c: Codec<P>, e: Entry<P>): Result<seq<byte>>
  {
    var body := c.enc(e.payload);
    if body.Err? then body
    else if !IsWord(|e.name|) || !IsWord(|body.value|) then Err("length out of range")
    else Ok(Le32(|e.name|) + e.name + Le32(|body.value|) + body.value)
  }

  /** The encodings of `es`, appended to `parts`; the first failure wins. */
  function EncodeFrom<P>(c: Codec<P>, parts: seq<byte>, es: seq<Entry<P>>): Result<seq<byte>>
    decreases |es|
  {
    if es == [] then Ok(parts)
    else
      var b := EncodeEntry(c, es[0]);
      if b.Err? then b else EncodeFrom(c, parts + b.value, es[1..])
  }

  function Prologue(n: Word): (b: seq<byte>)
    ensures |b| == 12
  {
    MAGIC + Le32(VERSION) + Le32(n)
  }

  function Encode<P>(c: Codec<P>, es: seq<Entry<P>>): Result<seq<byte>>
  {
    if !IsWord(|es|) then Err("too many entries") else EncodeFrom(c, Prologue(|es|), es)
  }

  /** One entry read at `pos`; a body that runs past the end of the data is cut short. */
  function DecodeEntry<P>(c: Codec<P>, data: seq<byte>, pos: nat): Result<(Name, P, nat)>
  {
    if pos + 4 > |data| then Err("no name length")
    else
      var atLength := pos + 4 + WordAt(data, pos);
      if atLength + 4 > |data| then Err("no body length")
      else
        var start := atLength + 4;
        var end := start + WordAt(data, atLength);
        var body := c.dec(data[start..if end <= |data| then end else |data|]);
        if body.Err? then Err(body.reason) else Ok((data[pos + 4..atLength], body.value, end))
  }

  function DecodeFrom<P>(c: Codec<P>, data: seq<byte>, pos: nat, n: nat, out: map<Name, P>): Result<map<Name, P>>
    decreases n
  {
    if n == 0 then Ok(out)
    else
      var e := DecodeEntry(c, data, pos);
      if e.Err? then Err(e.reason) else DecodeFrom(c, data, e.value.2, n - 1, out[e.value.0 := e.value.1])
  }

  function Decode<P>(c: Codec<P>, data: seq<byte>): Result<map<Name, P>>
  {
    if !(MAGIC <= data) then Err("bad magic")
    else if |data| < 12 then Err("short prologue")
    else if WordAt(data, 4) != VERSION then Err("unsupported codec version")
    else DecodeFrom(c, data, 12, WordAt(data, 8), map[])
  }

  method EncodePayloads<P>(c: Codec<P>, es: seq<Entry<P>>) returns (r: Result<seq<byte>>)
    ensures r == Encode(c, es)
  {
    if !IsWord(|es|) {
      return Err("too many entries");
    }
    var parts := Prologue(|es|);
    for i := 0 to |es|
      invariant EncodeFrom(c, parts, es[i..]) == Encode(c, es)
    {
      assert es[i..][1..] == es[i + 1..];
      var b := EncodeEntry(c, es[i]);
      if b.Err? {
        return b;
      }
      parts := parts + b.value;
    }
    return Ok(parts);
  }

  method ReadEntries<P>(c: Codec<P>, data: seq<byte>, start: nat, n: nat) returns (r: Result<map<Name, P>>)
    ensures r == DecodeFrom(c, data, start, n, map[])
  {
    var pos := start;
    var out := map[];
    for i := 0 to n
      invariant DecodeFrom(c, data, pos, n - i, out) == DecodeFrom(c, data, start, n, map[])
    {
      var e := DecodeEntry(c, data, pos);
      if e.Err? {
        return Err(e.reason);
      }
      out := out[e.value.0 := e.value.1];
      pos := e.value.2;
    }
    return Ok(out);
  }

  method DecodePayloads<P>(c: Codec<P>, data: seq<byte>) returns (r: Result<map<Name, P>>)
    ensures r == Decode(c, data)
  {
    if !(MAGIC <= data) {
      return Err("bad magic");
    }
    if |data| < 12 {
      return Err("short prologue");
    }
    if WordAt(data, 4) != VERSION {
      return Err("unsupported codec version");
    }
    r := ReadEntries(c, data, 12, WordAt(data, 8));
  }

  // ------------------------------------------------------------------------
  // Round trip
  // ------------------------------------------------------------------------

  /** The format can hold the entry, and its body, alone, reads back as `recv` says. */
  predicate Encodable<P(==)>(c: Codec<P>, recv: P -> P, e: Entry<P>)
  {
    && c.enc(e.payload).Ok? && IsWord(|e.name|) && IsWord(|c.enc(e.payload).value|)
    && c.dec(c.enc(e.payload).value) == Ok(recv(e.payload))
  }

  predicate AllEncodable<P(==)>(c: Codec<P>, recv: P -> P, es: seq<Entry<P>>)
  {
    forall i :: 0 <= i < |es| ==> Encodable(c, recv, es[i])
  }

  lemma WordInMiddle(pre: seq<byte>, w: Word, post: seq<byte>)
    ensures WordAt(pre + Le32(w) + post, |pre|) == w
  {
    assert FourBytes(Le32(w), 0, w);
    ReadFourBytes(pre, Le32(w), post, 0, w);
  }

  /** The places of the four parts of an entry that starts at `|pre|`. */
  lemma EntryParts(pre: seq<byte>, l1: seq<byte>, name: seq<byte>, l2: seq<byte>, body: seq<byte>, post: seq<byte>)
    requires |l1| == |l2| == 4
    ensures var data := pre + (l1 + name + l2 + body) + post;
            var at := |pre| + 4 + |name|;
            && data == pre + l1 + (name + l2 + body + post)
            && data == (pre + l1 + name) + l2 + (body + post)
            && data[|pre| + 4..at] == name && data[at + 4..at + 4 + |body|] == body
  {
  }

  lemma EntryReads(pre: seq<byte>, name: Name, body: seq<byte>, post: seq<byte>)
    requires IsWord(|name|) && IsWord(|body|)
    ensures var data := pre + (Le32(|name|) + name + Le32(|body|) + body) + post;
            var at := |pre| + 4 + |name|;
            && WordAt(data, |pre|) == |name| && WordAt(data, at) == |body|
            && data[|pre| + 4..at] == name && data[at + 4..at + 4 + |body|] == body
  {
    EntryParts(pre, Le32(|name|), name, Le32(|body|), body, post);
    WordInMiddle(pre, |name|, name + Le32(|body|) + body + post);
    WordInMiddle(pre + Le32(|name|) + name, |body|, body + post);
  }

  lemma DecodeEncodedEntry<P>(c: Codec<P>, recv: P -> P, pre: seq<byte>, e: Entry<P>, post: seq<byte>)
    requires Encodable(c, recv, e)
    ensures EncodeEntry(c, e).Ok?
    ensures DecodeEntry(c, pre + EncodeEntry(c, e).value + post, |pre|)
         == Ok((e.name, recv(e.payload), |pre| + |EncodeEntry(c, e).value|))
  {
    EntryReads(pre, e.name, c.enc(e.payload).value, post);
  }

  /** The entries collected into a map, the later ones winning. */
  function Collect<P>(recv: P -> P, out: map<Name, P>, es: seq<Entry<P>>): map<Name, P>
    decreases |es|
  {
    if es == [] then out else Collect(recv, out[es[0].name := recv(es[0].payload)], es[1..])
  }

  /** The entry `b` that follows `parts` in the data is the next one read. */
  lemma DecodeNext<P>(c: Codec<P>, recv: P -> P, parts: seq<byte>, b: seq<byte>, e: Entry<P>, data: seq<byte>)
    requires Encodable(c, recv, e) && EncodeEntry(c, e) == Ok(b) && parts + b <= data
    ensures DecodeEntry(c, data, |parts|) == Ok((e.name, recv(e.payload), |parts + b|))
  {
    DecodeEncodedEntry(c, recv, parts, e, data[|parts + b|..]);
    assert data == parts + b + data[|parts + b|..];
  }

  lemma EncodedEntry<P>(c: Codec<P>, recv: P -> P, e: Entry<P>) returns (b: seq<byte>)
    requires Encodable(c, recv, e)
    ensures EncodeEntry(c, e) == Ok(b)
  {
    b := EncodeEntry(c, e).value;
  }

  lemma {:induction false} EncodeFromOk<P>(c: Codec<P>, recv: P -> P, parts: seq<byte>, es: seq<Entry<P>>)
    requires AllEncodable(c, recv, es)
    ensures EncodeFrom(c, parts, es).Ok? && parts <= EncodeFrom(c, parts, es).value
    decreases |es|
  {
    if es != [] {
      var b := EncodedEntry(c, recv, es[0]);
      EncodeFromOk(c, recv, parts + b, es[1..]);
    }
  }

  lemma {:induction false} DecodeEncodedEntries<P>(c: Codec<P>, recv: P -> P, parts: seq<byte>, es: seq<Entry<P>>,
                                                   out: map<Name, P>, data: seq<byte>)
    requires AllEncodable(c, recv, es) && EncodeFrom(c, parts, es).Ok? && EncodeFrom(c, parts, es).value <= data
    ensures DecodeFrom(c, data, |parts|, |es|, out) == Ok(Collect(recv, out, es))
    decreases |es|
  {
    if es != [] {
      var e := es[0];
      var b := EncodedEntry(c, recv, e);
      EncodeFromOk(c, recv, parts + b, es[1..]);
      DecodeNext(c, recv, parts, b, e, data);
      DecodeEncodedEntries(c, recv, parts + b, es[1..], out[e.name := recv(e.payload)], data);
    }
  }

  lemma PrologueReads(n: Word, data: seq<byte>)
    requires Prologue(n) <= data
    ensures MAGIC <= data && WordAt(data, 4) == VERSION && WordAt(data, 8) == n
  {
    var rest := data[12..];
    assert data == MAGIC + Le32(VERSION) + (Le32(n) + rest);
    WordInMiddle(MAGIC, VERSION, Le32(n) + rest);
    assert data == (MAGIC + Le32(VERSION)) + Le32(n) + rest;
    WordInMiddle(MAGIC + Le32(VERSION), n, rest);
  }

  /** A container of encodable entries encodes, and decodes to them; what follows it is ignored. */
  lemma ContainerRoundTrip<P>(c: Codec<P>, recv: P -> P, es: seq<Entry<P>>, post: seq<byte>)
    requires IsWord(|es|) && AllEncodable(c, recv, es)
    ensures Encode(c, es).Ok? && Decode(c, Encode(c, es).value + post) == Ok(Collect(recv, map[], es))
  {
    EncodeFromOk(c, recv, Prologue(|es|), es);
    DecodeEncodedEntries(c, recv, Prologue(|es|), es, map[], Encode(c, es).value + post);
    PrologueReads(|es|, Encode(c, es).value + post);
  }

  // ------------------------------------------------------------------------
  // What the map holds
  // ------------------------------------------------------------------------

  predicate DistinctNames<P>(es: seq<Entry<P>>)
  {
    forall i, j :: 0 <= i < j < |es| ==> es[i].name != es[j].name
  }

  lemma {:induction false} CollectKeepsOthers<P>(recv: P -> P, out: map<Name, P>, es: seq<Entry<P>>, name: Name)
    requires forall i :: 0 <= i < |es| ==> es[i].name != name
    ensures name in Collect(recv, out, es) <==> name in out
    ensures name in out ==> Collect(recv, out, es)[name] == out[name]
    decreases |es|
  {
    if es != [] {
      CollectKeepsOthers(recv, out[es[0].name := recv(es[0].payload)], es[1..], name);
    }
  }

  lemma {:induction false} CollectHasAll<P>(recv: P -> P, out: map<Name, P>, es: seq<Entry<P>>, i: nat)
    requires DistinctNames(es) && i < |es|
    ensures es[i].name in Collect(recv, out, es) && Collect(recv, out, es)[es[i].name] == recv(es[i].payload)
    decreases |es|
  {
    var next := out[es[0].name := recv(es[0].payload)];
    if i == 0 {
      CollectKeepsOthers(recv, next, es[1..], es[0].name);
    } else {
      CollectHasAll(recv, next, es[1..], i - 1);
    }
  }

  lemma CollectOnlyNamed<P>(recv: P -> P, es: seq<Entry<P>>, name: Name)
    requires name in Collect(recv, map[], es)
    ensures exists i :: 0 <= i < |es| && es[i].name == name
  {
    if forall i :: 0 <= i < |es| ==> es[i].name != name {
      CollectKeepsOthers(recv, map[], es, name);
    }
  }

  // ------------------------------------------------------------------------
  // Truncated containers
  // ------------------------------------------------------------------------

  /** Cutting the data of an entry short leaves what is still there in place. */
  lemma CutEntry(pre: seq<byte>, whole: seq<byte>, data: seq<byte>, name: Name, body: seq<byte>)
    requires IsWord(|name|) && IsWord(|body|)
    requires whole == pre + (Le32(|name|) + name + Le32(|body|) + body) + [] && |pre| <= |data| < |whole| &&
             data == whole[..|data|]
    ensures |data| >= |pre| + 4 ==> WordAt(data, |pre|) == |name|
    ensures var at := |pre| + 4 + |name|;
            |data| >= at + 4 ==> WordAt(data, at) == |body| && data[at + 4..] == body[..|data| - (at + 4)]
  {
    EntryReads(pre, name, body, []);
    var at := |pre| + 4 + |name|;
    assert forall i :: 0 <= i < |data| ==> data[i] == whole[i];
    if |data| >= at + 4 {
      assert data[at + 4..] == whole[at + 4..|data|];
      assert whole[at + 4..|data|] == whole[at + 4..at + 4 + |body|][..|data| - (at + 4)];
    }
  }

  /**
   An entry cut short is read exactly when its body, cut short, is; the reader then goes on where it should
   have ended.
   */
  lemma TruncatedEntry<P>(c: Codec<P>, recv: P -> P, pre: seq<byte>, e: Entry<P>, t: nat)
    requires Encodable(c, recv, e) && EncodeEntry(c, e).Ok? && t < |EncodeEntry(c, e).value|
    ensures var r := DecodeEntry(c, pre + EncodeEntry(c, e).value[..t], |pre|);
            && (r.Ok? <==> t >= 8 + |e.name| && c.dec(c.enc(e.payload).value[..t - 8 - |e.name|]).Ok?)
            && (r.Ok? ==> r.value.2 == |pre| + |EncodeEntry(c, e).value|)
  {
    var whole := pre + EncodeEntry(c, e).value + [];
    var data := pre + EncodeEntry(c, e).value[..t];
    CutEntry(pre, whole, data, e.name, c.enc(e.payload).value);
    assert data[..|data|] == data;
  }

  lemma TruncatedNext<P>(c: Codec<P>, recv: P -> P, parts: seq<byte>, b: seq<byte>, e: Entry<P>, data: seq<byte>)
    requires Encodable(c, recv, e) && EncodeEntry(c, e) == Ok(b)
    requires parts <= data && data <= parts + b && |data| < |parts + b|
    ensures var r, start := DecodeEntry(c, data, |parts|), |parts| + 8 + |e.name|;
            && (r.Ok? <==> |data| >= start && c.dec(c.enc(e.payload).value[..|data| - start]).Ok?)
            && (r.Ok? ==> r.value.2 == |parts + b|)
  {
    TruncatedEntry(c, recv, parts, e, |data| - |parts|);
    assert data == parts + b[..|data| - |parts|];
  }

  /** The data ends inside the body of the last entry, and what is left of that body decodes. */
  predicate CutInLast<P>(c: Codec<P>, es: seq<Entry<P>>, total: nat, t: nat)
  {
    && |es| > 0 && c.enc(es[|es| - 1].payload).Ok?
    && var body := c.enc(es[|es| - 1].payload).value;
    && total - |body| <= t < total && c.dec(body[..t - (total - |body|)]).Ok?
  }

  /** The encoding of entries ends with the body of the last one. */
  lemma {:induction false} LastBodyFits<P>(c: Codec<P>, recv: P -> P, parts: seq<byte>, es: seq<Entry<P>>)
    requires AllEncodable(c, recv, es) && es != [] && EncodeFrom(c, parts, es).Ok?
    ensures |EncodeFrom(c, parts, es).value| - |c.enc(es[|es| - 1].payload).value| >= |parts|
    decreases |es|
  {
    var b := EncodedEntry(c, recv, es[0]);
    if |es| > 1 {
      LastBodyFits(c, recv, parts + b, es[1..]);
    } else {
      assert EncodeFrom(c, parts + b, []) == Ok(parts + b);
    }
  }

  lemma PastTheEnd<P>(c: Codec<P>, data: seq<byte>, pos: nat, n: nat, out: map<Name, P>)
    requires pos > |data| && n > 0
    ensures DecodeFrom(c, data, pos, n, out).Err?
  {
  }

  lemma TruncatedLast<P>(c: Codec<P>, recv: P -> P, parts: seq<byte>, es: seq<Entry<P>>, out: map<Name, P>,
                         data: seq<byte>)
    requires |es| == 1 && AllEncodable(c, recv, es) && EncodeFrom(c, parts, es).Ok?
    requires parts <= data && data <= EncodeFrom(c, parts, es).value && |data| < |EncodeFrom(c, parts, es).value|
    ensures DecodeFrom(c, data, |parts|, 1, out).Ok? <==> CutInLast(c, es, |EncodeFrom(c, parts, es).value|, |data|)
  {
    var b := EncodedEntry(c, recv, es[0]);
    assert EncodeFrom(c, parts, es) == EncodeFrom(c, parts + b, []) == Ok(parts + b);
    TruncatedNext(c, recv, parts, b, es[0], data);
    var e := DecodeEntry(c, data, |parts|);
    if e.Ok? {
      assert DecodeFrom(c, data, |parts|, 1, out) == DecodeFrom(c, data, e.value.2, 0, out[e.value.0 := e.value.1]);
    }
  }

  lemma {:induction false} TruncatedEntries<P>(c: Codec<P>, recv: P -> P, parts: seq<byte>, es: seq<Entry<P>>,
                                               out: map<Name, P>, data: seq<byte>)
    requires AllEncodable(c, recv, es) && EncodeFrom(c, parts, es).Ok?
    requires parts <= data && data <= EncodeFrom(c, parts, es).value && |data| < |EncodeFrom(c, parts, es).value|
    ensures DecodeFrom(c, data, |parts|, |es|, out).Ok? <==> CutInLast(c, es, |EncodeFrom(c, parts, es).value|, |data|)
    decreases |es|
  {
    if |es| == 1 {
      TruncatedLast(c, recv, parts, es, out, data);
    } else {
      var e := es[0];
      var b := EncodedEntry(c, recv, e);
      EncodeFromOk(c, recv, parts + b, es[1..]);
      assert es[1..][|es| - 2] == es[|es| - 1];
      if |data| < |parts + b| {
        TruncatedNext(c, recv, parts, b, e, data);
        LastBodyFits(c, recv, parts + b, es[1..]);
        var r := DecodeEntry(c, data, |parts|);
        if r.Ok? {
          PastTheEnd(c, data, r.value.2, |es| - 1, out[r.value.0 := r.value.1]);
        }
      } else {
        DecodeNext(c, recv, parts, b, e, data);
        TruncatedEntries(c, recv, parts + b, es[1..], out[e.name := recv(e.payload)], data);
      }
    }
  }

  /**
   A strict prefix of an encoded container decodes exactly when it ends in the last body and the codec accepts
   the rest of that.
   */
  lemma TruncatedIff<P>(c: Codec<P>, recv: P -> P, es: seq<Entry<P>>, t: nat)
    requires IsWord(|es|) && AllEncodable(c, recv, es)
    requires Encode(c, es).Ok? && t < |Encode(c, es).value|
    ensures Decode(c, Encode(c, es).value[..t]).Ok? <==> CutInLast(c, es, |Encode(c, es).value|, t)
  {
    var data := Encode(c, es).value;
    EncodeFromOk(c, recv, Prologue(|es|), es);
    if es != [] {
      LastBodyFits(c, recv, Prologue(|es|), es);
    }
    if t >= 12 {
      assert Prologue(|es|) <= data[..t];
      PrologueReads(|es|, data[..t]);
      TruncatedEntries(c, recv, Prologue(|es|), es, map[], data[..t]);
    }
  }
}
