/** The wire form of a tensor: the length of a header, the header, and the raw elements. */
module TensorIo {
  import opened Common
  import opened Bytes

  datatype DType = Float32 | Float16 | BFloat16 | Int32 | Int64 | Int8 | UInt8 | Bool | Unknown

  function DTypeBytes(d: DType): nat
  {
    match d
    case Float32 => 4
    case Float16 => 2
    case BFloat16 => 2
    case Int32 => 4
    case Int64 => 8
    case Int8 => 1
    case UInt8 => 1
    case Bool => 1
    case Unknown => 0
  }

  /** What a header says; a field may be missing from one that was read. */
  datatype Header = Header(shape: Option<seq<int>>, dtype: Option<DType>, layout: Option<string>, version: Option<int>)

  /** How headers are written as text and read. */
  datatype Json = Json(dumps: Header -> seq<byte>, loads: seq<byte> -> Option<Header>)

  /** A tensor by its raw elements; the elements of a boolean tensor are zeros and ones. */
  datatype Tensor = Tensor(shape: seq<int>, dtype: DType, raw: seq<byte>)

  const ROW_MAJOR := "row_major"

  method ExpectedPayloadBytes(shape: seq<int>, dtype: DType) returns (n: int)
    ensures n == Product(shape) * DTypeBytes(dtype)
  {
    n := 1;
    for i := 0 to |shape|
      invariant n == Product(shape[..i])
    {
      assert shape[..i + 1][..i] == shape[..i];
      n := n * shape[i];
    }
    assert shape[..|shape|] == shape;
    n := n * DTypeBytes(dtype);
  }

  predicate IsTensor(t: Tensor)
  {
    && t.dtype != Unknown && |t.raw| == Product(t.shape) * DTypeBytes(t.dtype)
    && (forall i :: 0 <= i < |t.shape| ==> t.shape[i] >= 0)
    && (t.dtype == Bool ==> forall i :: 0 <= i < |t.raw| ==> t.raw[i] <= 1)
  }

  function HeaderOf(t: Tensor): Header { Header(Some(t.shape), Some(t.dtype), Some(ROW_MAJOR), Some(1)) }

  function Encode(j: Json, t: Tensor): Result<seq<byte>>
  {
    var h := j.dumps(HeaderOf(t));
    if t.dtype == Unknown then Err("unsupported dtype")
    else if |t.raw| != Product(t.shape) * DTypeBytes(t.dtype) then Err("payload size mismatch")
    else if !IsWord(|h|) then Err("header too long")
    else Ok(Le32(|h|) + h + t.raw)
  }

  /** Any non-zero byte is true. */
  function Truths(raw: seq<byte>): seq<byte> { seq(|raw|, i requires 0 <= i < |raw| => if raw[i] == 0 then 0 else 1) }

  function DecodeBody(h: Header, payload: seq<byte>): Result<Tensor>
  {
    if h.version != Some(1) then Err("unsupported wire version")
    else if h.layout.Some? && h.layout.value != ROW_MAJOR then Err("unsupported layout")
    else if h.shape.None? || h.dtype.None? then Err("missing header field")
    else if h.dtype.value == Unknown then Err("unsupported wire dtype")
    else if |payload| != Product(h.shape.value) * DTypeBytes(h.dtype.value) then Err("payload truncated")
    else if exists i :: 0 <= i < |h.shape.value| && h.shape.value[i] < 0 then Err("negative dimension")
    else Ok(Tensor(h.shape.value, h.dtype.value, if h.dtype.value == Bool then Truths(payload) else payload))
  }

  function Decode(j: Json, b: seq<byte>): Result<Tensor>
  {
    if |b| < 4 then Err("blob too short for header length")
    else
      var n := WordAt(b, 0);
      if 4 + n > |b| then Err("blob truncated in header")
      else
        var h := j.loads(b[4..4 + n]);
        if h.None? then Err("malformed header") else DecodeBody(h.value, b[4 + n..])
  }

  /** A header reads back as it was written, and is not longer than its length field can say. */
  ghost predicate Faithful(j: Json, h: Header) { j.loads(j.dumps(h)) == Some(h) && IsWord(|j.dumps(h)|) }

  lemma WordInFront(w: Word, rest: seq<byte>)
    ensures WordAt(Le32(w) + rest, 0) == w
  {
    assert FourBytes(Le32(w), 0, w);
    FrontFourBytes(Le32(w), rest, 0, w);
  }

  /** A blob with this header and these elements, whatever they are. */
  lemma DecodeParts(j: Json, h: Header, payload: seq<byte>)
    requires Faithful(j, h)
    ensures Decode(j, Le32(|j.dumps(h)|) + j.dumps(h) + payload) == DecodeBody(h, payload)
  {
    var text := j.dumps(h);
    var b := Le32(|text|) + text + payload;
    assert b == Le32(|text|) + (text + payload);
    WordInFront(|text|, text + payload);
    assert b[4..4 + |text|] == text && b[4 + |text|..] == payload;
  }

  /** Every tensor comes back from its wire form. */
  lemma DecodeEncode(j: Json, t: Tensor)
    requires IsTensor(t) && Faithful(j, HeaderOf(t))
    ensures Encode(j, t).Ok? && Decode(j, Encode(j, t).value) == Ok(t)
  {
    DecodeParts(j, HeaderOf(t), t.raw);
    BodyBack(t);
  }

  lemma BodyBack(t: Tensor)
    requires IsTensor(t)
    ensures DecodeBody(HeaderOf(t), t.raw) == Ok(t)
  {
    if t.dtype == Bool {
      assert Truths(t.raw) == t.raw;
    }
  }

  /** Nothing may follow the elements of a tensor. */
  lemma ExtensionRejected(j: Json, t: Tensor, more: seq<byte>)
    requires IsTensor(t) && Faithful(j, HeaderOf(t)) && more != []
    ensures Encode(j, t).Ok? && Decode(j, Encode(j, t).value + more).Err?
  {
    DecodeParts(j, HeaderOf(t), t.raw + more);
    var text := j.dumps(HeaderOf(t));
    assert Encode(j, t).value + more == Le32(|text|) + text + (t.raw + more);
  }

  /** No strict prefix of a tensor's wire form decodes. */
  lemma TruncationRejected(j: Json, t: Tensor, n: nat)
    requires IsTensor(t) && Faithful(j, HeaderOf(t)) && Encode(j, t).Ok? && n < |Encode(j, t).value|
    ensures Decode(j, Encode(j, t).value[..n]).Err?
  {
    var text := j.dumps(HeaderOf(t));
    var b := Encode(j, t).value;
    if n >= 4 + |text| {
      DecodeParts(j, HeaderOf(t), t.raw[..n - 4 - |text|]);
      assert b[..n] == Le32(|text|) + text + t.raw[..n - 4 - |text|];
    } else if n >= 4 {
      assert b[..n] == Le32(|text|) + text[..n - 4];
      WordInFront(|text|, text[..n - 4]);
    }
  }

  /** A blob in canonical form: its header is written as the encoder writes it, with a layout, and truths are 0 or 1. */
  ghost predicate Canonical(j: Json, b: seq<byte>, h: Header)
  {
    && |b| >= 4 && 4 + WordAt(b, 0) <= |b| && b[4..4 + WordAt(b, 0)] == j.dumps(h)
    && j.loads(j.dumps(h)) == Some(h) && h.layout.Some?
    && (h.dtype == Some(Bool) ==> forall i :: 4 + WordAt(b, 0) <= i < |b| ==> b[i] <= 1)
  }

  lemma WordBack(b: seq<byte>)
    requires |b| >= 4
    ensures b[..4] == Le32(WordAt(b, 0))
  {
    BytesBack(b[0], b[1], b[2], b[3], WordAt(b, 0));
  }

  lemma BytesBack(b0: int, b1: int, b2: int, b3: int, w: int)
    requires 0 <= b0 < 256 && 0 <= b1 < 256 && 0 <= b2 < 256 && w == FromBytes(b0, b1, b2, b3)
    ensures w % 256 == b0 && w / 256 % 256 == b1 && w / 65536 % 256 == b2 && w / 16777216 == b3
  {
    assert w / 256 == b1 + 256 * b2 + 65536 * b3;
    assert w / 65536 == b2 + 256 * b3;
  }

  /** What decodes from a canonical blob encodes to that blob again: no other blob is accepted for the tensor. */
  lemma EncodeDecode(j: Json, b: seq<byte>, h: Header, t: Tensor)
    requires Canonical(j, b, h) && Decode(j, b) == Ok(t)
    ensures IsTensor(t) && h == HeaderOf(t) && Encode(j, t) == Ok(b)
  {
    var n := WordAt(b, 0);
    var payload := b[4 + n..];
    BodyIs(h, payload, t);
    WordBack(b);
    assert b == b[..4] + b[4..4 + n] + payload;
  }

  lemma BodyIs(h: Header, payload: seq<byte>, t: Tensor)
    requires DecodeBody(h, payload) == Ok(t) && h.layout.Some?
    requires h.dtype == Some(Bool) ==> forall i :: 0 <= i < |payload| ==> payload[i] <= 1
    ensures IsTensor(t) && h == HeaderOf(t) && t.raw == payload
  {
    if h.dtype.value == Bool {
      assert Truths(payload) == payload;
    }
  }
}
