/** The container of sparse payloads: the framing with the packed codec inside. */
module SparseContainer {
  import opened Common
  import opened Bytes
  import opened SparseCodec
  import opened Framing

  function DecodeBody(b: seq<byte>): Result<Payload>
  {
    var r := DecodeOne(b);
    if r.Err? then Err(r.reason) else Ok(r.value.0)
  }

  function Wire(): Codec<Payload> { Codec(EncodeOne, DecodeBody) }

  /** A payload that the compressor can make and whose name and body lengths fit the format. */
  predicate Sendable(e: Entry<Payload>)
  {
    && WellFormed(e.payload) && EncodeOne(e.payload).Ok?
    && IsWord(|e.name|) && IsWord(|EncodeOne(e.payload).value|)
  }

  predicate AllSendable(es: seq<Entry<Payload>>)
  {
    IsWord(|es|) && forall i :: 0 <= i < |es| ==> Sendable(es[i])
  }

  lemma SendableEncodable(e: Entry<Payload>)
    requires Sendable(e)
    ensures Encodable(Wire(), Received, e)
  {
    DecodeEncode(e.payload, []);
    assert EncodeOne(e.payload).value + [] == EncodeOne(e.payload).value;
  }

  lemma AllSendableEncodable(es: seq<Entry<Payload>>)
    requires AllSendable(es)
    ensures AllEncodable(Wire(), Received, es)
  {
    forall i | 0 <= i < |es| ensures Encodable(Wire(), Received, es[i]) {
      SendableEncodable(es[i]);
    }
  }

  /** The tensor looks two-bit and holds a zero. */
  predicate HidesZero(p: Payload) { LooksTwoBit(p.q) && 0 in p.q }

  /**
   A container of differently named tensors decodes, whatever follows it, to exactly the names
   sent, and each tensor arrives unchanged if and only if it does not both look two-bit and hold a zero.
   */
  lemma WireLosslessIff(es: seq<Entry<Payload>>, post: seq<byte>)
    requires AllSendable(es) && DistinctNames(es)
    ensures Encode(Wire(), es).Ok? && Decode(Wire(), Encode(Wire(), es).value + post).Ok?
    ensures var got := Decode(Wire(), Encode(Wire(), es).value + post).value;
            && (forall name :: name in got ==> exists i :: 0 <= i < |es| && es[i].name == name)
            && (forall i :: 0 <= i < |es| ==>
              es[i].name in got && (got[es[i].name] == es[i].payload <==> !HidesZero(es[i].payload)))
  {
    AllSendableEncodable(es);
    ContainerRoundTrip(Wire(), Received, es, post);
    var got := Collect(Received, map[], es);
    forall i | 0 <= i < |es|
      ensures es[i].name in got && (got[es[i].name] == es[i].payload <==> !HidesZero(es[i].payload))
    {
      CollectHasAll(Received, map[], es, i);
      ReceivedIsSent(es[i].payload);
    }
    forall name | name in got ensures exists i :: 0 <= i < |es| && es[i].name == name {
      CollectOnlyNamed(Received, es, name);
    }
  }

  /** The data ends in the last tensor's body, at a cut that its indices survive. */
  predicate LastCutAccepted(es: seq<Entry<Payload>>, total: nat, t: nat)
  {
    && |es| > 0 && EncodeOne(es[|es| - 1].payload).Ok?
    && var start := total - |EncodeOne(es[|es| - 1].payload).value|;
       start <= t && CutAccepted(es[|es| - 1].payload, t - start)
  }

  lemma BodyCutIff(p: Payload, body: seq<byte>, m: nat)
    requires WellFormed(p) && EncodeOne(p) == Ok(body) && m < |body|
    ensures Wire().enc(p) == Ok(body) && (Wire().dec(body[..m]).Ok? <==> CutAccepted(p, m))
  {
    PrefixDecodesIff(p, m);
  }

  lemma CutInLastIff(es: seq<Entry<Payload>>, total: nat, t: nat)
    requires AllSendable(es) && t < total
    ensures CutInLast(Wire(), es, total, t) <==> LastCutAccepted(es, total, t)
  {
    if |es| > 0 {
      var p := es[|es| - 1].payload;
      assert Sendable(es[|es| - 1]);
      var body := EncodeOne(p).value;
      assert Wire().enc(p) == Ok(body);
      if total - |body| <= t {
        BodyCutIff(p, body, t - (total - |body|));
      }
    }
  }

  /**
   Truncation of a container is noticed, unless it only costs bytes of the last tensor's indices, these
   are twelve bits wide, and what is left of them is one of the few lengths that still unpack.
   */
  lemma WireTruncatedIff(es: seq<Entry<Payload>>, t: nat)
    requires AllSendable(es) && Encode(Wire(), es).Ok? && t < |Encode(Wire(), es).value|
    ensures Decode(Wire(), Encode(Wire(), es).value[..t]).Ok? <==>
            LastCutAccepted(es, |Encode(Wire(), es).value|, t)
  {
    AllSendableEncodable(es);
    TruncatedIff(Wire(), Received, es, t);
    CutInLastIff(es, |Encode(Wire(), es).value|, t);
  }

  /** With indices of sixteen or more bits in the last tensor, no strict prefix decodes. */
  lemma WideIndicesRejectTruncation(es: seq<Entry<Payload>>, t: nat)
    requires AllSendable(es) && Encode(Wire(), es).Ok? && t < |Encode(Wire(), es).value|
    requires |es| > 0 ==> es[|es| - 1].payload.chunkSize > 4096
    ensures Decode(Wire(), Encode(Wire(), es).value[..t]).Err?
  {
    WireTruncatedIff(es, t);
  }
}
