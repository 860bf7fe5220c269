/** The eight-byte prefix carried in HTTP headers instead of the body (src/rpc/rpc_http.js). */
module RpcHttp {
  import opened Wrappers
  import opened Bytes
  import opened Buffers
  import opened RpcMessage
  import opened RpcRequest

  /** The two headers, as the strings that travel. */
  datatype Headers = Headers(version: Option<string>, bodyLen: Option<string>)

  /** Prefix as numbers, and the fragments left for the HTTP body; None is a short list. */
  function ExtractMeta(parts: seq<Data>): Option<(Headers, seq<Data>)> {
    var (meta, rest) := ExtractJoined(parts, 8);
    if |meta| < 8 then None
    else Some((Headers(Some(ToDecimal(ReadU32(meta, 0))), Some(ToDecimal(ReadU32(meta, 4)))), rest))
  }

  function HeaderNumber(header: Option<string>, default: nat): Option<nat> {
    if header == None then Some(default) else ParseDecimal(header.value)
  }

  /** None is a header that is no number of 32 bits. */
  function AddMeta(parts: seq<Data>, totalLength: nat, headers: Headers): Option<seq<Data>> {
    var version, bodyLen := HeaderNumber(headers.version, VERSION), HeaderNumber(headers.bodyLen, totalLength);
    if version.Some? && bodyLen.Some? && version.value < U32 && bodyLen.value < U32
    then Some([U32Bytes(version.value) + U32Bytes(bodyLen.value)] + parts)
    else None
  }

  /** What the receiver decodes from the fragments it read and the headers of `sent`. */
  function DecodeHttp<V>(c: Codec<V>, sent: seq<Data>, received: seq<Data>, totalLength: nat): Option<Message<V>> {
    match ExtractMeta(sent)
    case None => None
    case Some((headers, _)) =>
      match AddMeta(received, totalLength, headers)
      case None => None
      case Some(parts) => match Decode(c, parts) case Ok(m) => Some(m) case Err(_) => None
  }

  /** The receiver read exactly the bytes that `sent` leaves for the HTTP body. */
  ghost predicate BodyArrives(sent: seq<Data>, received: seq<Data>) {
    ExtractMeta(sent).Some? ==> Flatten(received) == Flatten(ExtractMeta(sent).value.1)
  }

  /** A list of fewer than eight bytes has no prefix to extract, unless its fragments get padded. */
  lemma ShortHasNoPrefix(parts: seq<Data>)
    ensures ExtractMeta(parts) == None <==> |Flatten(parts)| < 8 && |parts| <= 1
  {
    PrefixLength(parts);
  }

  lemma PrefixLength(parts: seq<Data>)
    ensures |ExtractJoined(parts, 8).0| < 8 <==> |Flatten(parts)| < 8 && |parts| <= 1
  {
    ExtractJoinedBytes(parts, 8);
  }

  /** Any eight bytes survive the headers. */
  lemma PrefixTravels(parts: seq<Data>, meta: Data, rest: Data, received: seq<Data>, totalLength: nat)
    requires |meta| == 8 && Flatten(parts) == meta + rest
    ensures
      var sent := ExtractMeta(parts);
      && sent.Some? && Flatten(sent.value.1) == rest
      && AddMeta(received, totalLength, sent.value.0) == Some([meta] + received)
  {
    ExtractFront(parts, meta, rest);
    U32Back(meta, 0);
    U32Back(meta, 4);
    DecimalRoundTrip(ReadU32(meta, 0));
    DecimalRoundTrip(ReadU32(meta, 4));
    assert meta == meta[0..4] + meta[4..8];
  }

  /** A message sent over HTTP decodes to the same body and attached bytes,
      whatever fragments the receiver reads. */
  lemma HttpRoundTrip<V(!new)>(c: Codec<V>, m: Message<V>, received: seq<Data>, totalLength: nat)
    requires Faithful(c) && Encode(c, m).Some? && BodyArrives(Encode(c, m).value, received)
    ensures
      var d := DecodeHttp(c, Encode(c, m).value, received, totalLength);
      && d.Some? && d.value.body == m.body && Flatten(d.value.buffers) == Flatten(m.buffers)
  {
    var e, body := Encode(c, m).value, c.stringify(m.body);
    var meta := U32Bytes(VERSION) + U32Bytes(|body|);
    EncodedBytes(c, m);
    assert meta + body + Flatten(m.buffers) == meta + (body + Flatten(m.buffers));
    PrefixTravels(e, meta, body + Flatten(m.buffers), received, totalLength);
    var again := [meta] + received;
    assert again[1..] == received && Flatten(again) == Flatten(e);
    MessageRoundTrip(c, m, again);
  }

  /** A request posted over HTTP keeps its id, route, token, parameters and every attachment by name. */
  lemma HttpRequestRoundTrip<V(!new)>(c: Codec<V>, reqid: string, api: string, meth: string,
                                      params: Option<Payload<V>>, authToken: Option<string>,
                                      received: seq<Data>, totalLength: nat)
    requires Faithful(c) && WellNamed(params)
    requires var e := Encode(c, RequestMessage(reqid, api, meth, params, authToken));
             e.Some? && BodyArrives(e.value, received)
    ensures
      var sent := Encode(c, RequestMessage(reqid, api, meth, params, authToken)).value;
      var d := DecodeHttp(c, sent, received, totalLength);
      d.Some? && ArrivesAsRequest(d.value, reqid, api, meth, params, authToken)
  {
    var m := RequestMessage(reqid, api, meth, params, authToken);
    HttpRoundTrip(c, m, received, totalLength);
    AttachedBack(params, DecodeHttp(c, Encode(c, m).value, received, totalLength).value.buffers);
  }

  /** So does the outcome in the HTTP response. */
  lemma HttpResponseRoundTrip<V(!new)>(c: Codec<V>, reqid: string, took: int, outcome: Outcome<V>,
                                       received: seq<Data>, totalLength: nat)
    requires Faithful(c)
    requires outcome.Replied? ==> WellNamed(outcome.reply)
    requires var e := Encode(c, ResponseMessage(reqid, took, outcome));
             e.Some? && BodyArrives(e.value, received)
    ensures
      var sent := Encode(c, ResponseMessage(reqid, took, outcome)).value;
      var d := DecodeHttp(c, sent, received, totalLength);
      d.Some? && ArrivesAsResponse(d.value, reqid, took, outcome)
  {
    var m := ResponseMessage(reqid, took, outcome);
    HttpRoundTrip(c, m, received, totalLength);
    if outcome.Replied? {
      AttachedBack(outcome.reply, DecodeHttp(c, Encode(c, m).value, received, totalLength).value.buffers);
    }
  }

  /** Without the headers the whole HTTP body is the JSON body, and nothing is attached. */
  lemma BareBodyIsJson<V>(c: Codec<V>, received: seq<Data>)
    requires |Flatten(received)| < U32
    ensures
      var whole := Flatten(received);
      var d := Decode(c, AddMeta(received, |whole|, Headers(None, None)).value);
      match c.parse(whole)
      case None => d == Err(BadJson)
      case Some(b) => d.Ok? && d.value.body == b && Flatten(d.value.buffers) == []
  {
    var whole := Flatten(received);
    var again := [U32Bytes(VERSION) + U32Bytes(|whole|)] + received;
    assert again[1..] == received;
    assert Flatten(again) == U32Bytes(VERSION) + U32Bytes(|whole|) + whole + [];
    DecodeSplits(c, again, whole, []);
  }

  /** The sender cuts the prefix off the list in place. */
  method ExtractMetaBuffer(list: BufferList) returns (r: Option<Headers>)
    modifies list
    ensures match ExtractMeta(old(list.parts))
            case Some(p) => r == Some(p.0) && list.parts == p.1
            case None => r == None
  {
    var meta := list.ExtractJoin(8);
    if |meta| < 8 {
      return None;
    }
    return Some(Headers(Some(ToDecimal(ReadU32(meta, 0))), Some(ToDecimal(ReadU32(meta, 4)))));
  }
}
