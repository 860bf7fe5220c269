/** Length-prefixed messages (src/rpc/rpc_message.js). */
module RpcMessage {
  import opened Wrappers
  import opened Bytes
  import opened Buffers

  const MAGIC: byte := 0xba
  const MAJOR: byte := 0
  const MINOR: byte := 0
  const FLAGS: byte := 0

  const VERSION_BYTES: Data := [MAGIC, MAJOR, MINOR, FLAGS]
  const VERSION: nat := 0xba00_0000

  /** Name and size of one attachment, as the body carries them. */
  datatype Descriptor = Descriptor(name: string, len: nat)

  datatype ErrorInfo<V> = ErrorInfo(message: string, code: Option<string>, data: Option<V>)

  /** The JSON payload; an absent property is None. */
  datatype Body<V> = Body(
    op: string, reqid: string,
    api: Option<string>, meth: Option<string>, params: Option<V>, authToken: Option<string>,
    took: Option<int>, reply: Option<V>, error: Option<ErrorInfo<V>>,
    buffers: Option<seq<Descriptor>>)

  /** JSON.stringify and JSON.parse, as an encoding about which nothing else is known. */
  datatype Codec<!V> = Codec(stringify: Body<V> -> Data, parse: Data -> Option<Body<V>>)

  ghost predicate Faithful<V(!new)>(c: Codec<V>) {
    forall b: Body<V> :: c.parse(c.stringify(b)) == Some(b)
  }

  datatype Message<V> = Message(body: Body<V>, buffers: seq<Data>)

  datatype DecodeError =
    | OutOfRange
    | MagicMismatch
    | MajorMismatch
    | MinorMismatch
    | FlagsMismatch
    | BadJson

  /** None stands for the range error of writing a body length that 32 bits cannot hold. */
  function Encode<V>(c: Codec<V>, m: Message<V>): Option<seq<Data>> {
    var body := c.stringify(m.body);
    if U32 <= |body| then None
    else Some([U32Bytes(VERSION) + U32Bytes(|body|), body] + m.buffers)
  }

  function CheckVersion(meta: Data): Option<DecodeError> {
    if |meta| < 4 then Some(OutOfRange)
    else if ReadU32(meta, 0) == VERSION then None
    else if meta[0] != MAGIC then Some(MagicMismatch)
    else if meta[1] != MAJOR then Some(MajorMismatch)
    else if meta[2] != MINOR then Some(MinorMismatch)
    else Some(FlagsMismatch)
  }

  function Decode<V>(c: Codec<V>, parts: seq<Data>): Result<Message<V>, DecodeError> {
    var (meta, afterMeta) := ExtractJoined(parts, 8);
    match CheckVersion(meta)
    case Some(e) => Err(e)
    case None =>
      if |meta| < 8 then Err(OutOfRange)
      else
        var (body, rest) := ExtractJoined(afterMeta, ReadU32(meta, 4));
        match c.parse(body)
        case None => Err(BadJson)
        case Some(b) => Ok(Message(b, rest))
  }

  /** The version is accepted exactly when the first four bytes are the magic and three zeros, and each
      error says that the bytes before agree and its own does not. */
  lemma VersionCheckedByteByByte(meta: Data)
    requires 4 <= |meta|
    ensures CheckVersion(meta) == None <==> meta[..4] == VERSION_BYTES
    ensures CheckVersion(meta) == Some(MagicMismatch) <==> meta[0] != MAGIC
    ensures CheckVersion(meta) == Some(MajorMismatch) <==> meta[..1] == VERSION_BYTES[..1] && meta[1] != MAJOR
    ensures CheckVersion(meta) == Some(MinorMismatch) <==> meta[..2] == VERSION_BYTES[..2] && meta[2] != MINOR
    ensures CheckVersion(meta) == Some(FlagsMismatch) <==> meta[..3] == VERSION_BYTES[..3] && meta[3] != FLAGS
  {
    assert ReadU32(meta, 0) ==
        ((meta[0] as int * 0x100 + meta[1] as int) * 0x100 + meta[2] as int) * 0x100 + meta[3] as int;
    assert meta[..4] == [meta[0], meta[1], meta[2], meta[3]];
    assert meta[..3] == [meta[0], meta[1], meta[2]] && meta[..2] == [meta[0], meta[1]] && meta[..1] == [meta[0]];
    assert VERSION_BYTES[..3] == [MAGIC, MAJOR, MINOR] && VERSION_BYTES[..2] == [MAGIC, MAJOR];
    assert VERSION_BYTES[..1] == [MAGIC];
  }

  /** The bytes of an encoded message. */
  lemma EncodedBytes<V>(c: Codec<V>, m: Message<V>)
    requires Encode(c, m).Some?
    ensures
      var body := c.stringify(m.body);
      var meta := U32Bytes(VERSION) + U32Bytes(|body|);
      |meta| == 8 && Flatten(Encode(c, m).value) == meta + body + Flatten(m.buffers)
  {
    var body := c.stringify(m.body);
    var meta := U32Bytes(VERSION) + U32Bytes(|body|);
    FlattenAppend([meta, body], m.buffers);
    assert [meta, body][1..] == [body] && Flatten([body]) == body;
  }

  /** The wire format: magic and version, the length of the body with its high byte first, the body, and
      the attached bytes; only a body whose length four bytes cannot hold is not encoded. */
  lemma OnWire<V>(c: Codec<V>, m: Message<V>)
    ensures Encode(c, m).Some? <==> |c.stringify(m.body)| < 0x1_0000_0000
    ensures Encode(c, m).Some? ==>
      var w, n := Flatten(Encode(c, m).value), |c.stringify(m.body)|;
      && 8 + n <= |w| && w[..4] == [0xba, 0, 0, 0]
      && ((w[4] as int * 0x100 + w[5] as int) * 0x100 + w[6] as int) * 0x100 + w[7] as int == n
      && w[8..8 + n] == c.stringify(m.body) && w[8 + n..] == Flatten(m.buffers)
  {
    if Encode(c, m).Some? {
      var body := c.stringify(m.body);
      var meta := U32Bytes(VERSION) + U32Bytes(|body|);
      EncodedBytes(c, m);
      U32RoundTrip(|body|);
      assert U32Bytes(VERSION) == [0xba, 0, 0, 0];
      var w := meta + body + Flatten(m.buffers);
      assert w[4..8] == U32Bytes(|body|) == [w[4], w[5], w[6], w[7]];
    }
  }

  /** A message that is long enough for its version is refused for the first byte of it that is wrong. */
  lemma VersionRefused<V>(c: Codec<V>, parts: seq<Data>)
    requires 4 <= |Flatten(parts)|
    ensures
      var w, d := Flatten(parts), Decode(c, parts);
      && (d == Err(MagicMismatch) <==> w[0] != 0xba)
      && (d == Err(MajorMismatch) <==> w[0] == 0xba && w[1] != 0)
      && (d == Err(MinorMismatch) <==> w[0] == 0xba && w[1] == 0 && w[2] != 0)
      && (d == Err(FlagsMismatch) <==> w[0] == 0xba && w[1] == 0 && w[2] == 0 && w[3] != 0)
  {
    var w, meta := Flatten(parts), ExtractJoined(parts, 8).0;
    ExtractJoinedBytes(parts, 8);
    assert 4 <= |meta| && meta[..4] == w[..4];
    assert forall i :: 0 <= i < 4 ==> meta[..4][i] == meta[i] && w[..4][i] == w[i];
    VersionCheckedByteByByte(meta);
    assert meta[..4] == [meta[0], meta[1], meta[2], meta[3]];
    assert meta[..3] == [meta[0], meta[1], meta[2]] && meta[..2] == [meta[0], meta[1]] && meta[..1] == [meta[0]];
  }

  /** Decoding splits `meta + body + tail` at the right places, however it is fragmented. */
  lemma DecodeSplits<V>(c: Codec<V>, parts: seq<Data>, body: Data, tail: Data)
    requires |body| < U32
    requires Flatten(parts) == U32Bytes(VERSION) + U32Bytes(|body|) + body + tail
    ensures c.parse(body) == None ==> Decode(c, parts) == Err(BadJson)
    ensures c.parse(body).Some? ==>
      Decode(c, parts).Ok? && Decode(c, parts).value.body == c.parse(body).value
      && Flatten(Decode(c, parts).value.buffers) == tail
  {
    var meta := U32Bytes(VERSION) + U32Bytes(|body|);
    U32RoundTrip(VERSION);
    U32RoundTrip(|body|);
    assert Flatten(parts) == meta + (body + tail);
    ExtractFront(parts, meta, body + tail);
    assert ReadU32(meta, 0) == VERSION && ReadU32(meta, 4) == |body|;
    ExtractFront(ExtractJoined(parts, 8).1, body, tail);
  }

  /** A message survives any re-fragmentation of its bytes: same body, same attached bytes. */
  lemma MessageRoundTrip<V(!new)>(c: Codec<V>, m: Message<V>, parts: seq<Data>)
    requires Faithful(c)
    requires Encode(c, m).Some? && Flatten(parts) == Flatten(Encode(c, m).value)
    ensures Decode(c, parts).Ok?
    ensures Decode(c, parts).value.body == m.body
    ensures Flatten(Decode(c, parts).value.buffers) == Flatten(m.buffers)
  {
    EncodedBytes(c, m);
    DecodeSplits(c, parts, c.stringify(m.body), Flatten(m.buffers));
  }

  /** Decoding consumes the list of fragments in place; what is left is the message's buffers. */
  method DecodeList<V>(c: Codec<V>, list: BufferList) returns (r: Result<Body<V>, DecodeError>)
    modifies list
    ensures match Decode(c, old(list.parts))
            case Ok(m) => r == Ok(m.body) && list.parts == m.buffers
            case Err(e) => r == Err(e)
  {
    var meta := list.ExtractJoin(8);
    var bad := CheckVersion(meta);
    if bad.Some? {
      return Err(bad.value);
    }
    if |meta| < 8 {
      return Err(OutOfRange);
    }
    var bodyBytes := list.ExtractJoin(ReadU32(meta, 4));
    var body := c.parse(bodyBytes);
    if body == None {
      return Err(BadJson);
    }
    return Ok(body.value);
  }
}
