/** The STUN packet codec (src/rpc/stun.js), sections 6, 15, 15.1 and 15.2 of RFC 5389.
    A text attribute is its UTF-8 bytes, an IPv4 address its four bytes. */
module Stun {
  import opened Wrappers
  import opened Bytes

  const HEADER_LENGTH: nat := 20
  const MAGIC: Data := [0x21, 0x12, 0xA4, 0x42]
  const MAGIC_PORT_KEY: nat := 0x2112
  const BINDING_TYPE: nat := 1

  const REQUEST: nat := 0x0000
  const INDICATION: nat := 0x0010
  const SUCCESS: nat := 0x0100
  const ERROR: nat := 0x0110

  const MAPPED_ADDRESS: nat := 0x0001
  const CHANGED_ADDRESS: nat := 0x0005
  const USERNAME: nat := 0x0006
  const PASSWORD: nat := 0x0007
  const ERROR_CODE: nat := 0x0009
  const UNKNOWN_ATTRIBUTES: nat := 0x000A
  const REALM: nat := 0x0014
  const XOR_MAPPED_ADDRESS: nat := 0x0020
  const USE_CANDIDATE: nat := 0x0025
  const ICE_CONTROLLED: nat := 0x0026
  const ICE_CONTROLLING: nat := 0x0027
  const SOFTWARE: nat := 0x8022

  const MAX_PACKET: nat := 512
  const MAX_ATTRS: nat := 11
  const MAX_ATTR_LENGTH: nat := 256

  datatype Value =
    | Raw(bytes: Data)
    | Address(port: nat, ip: Data)
    | Address6(port6: nat)
    | ErrorBlock(block: nat, reason: nat)
    | Codes(codes: seq<nat>)

  datatype AnyAttr = Attr(kind: nat, value: Value)

  datatype Decoded = Decoded(kind: nat, length: nat, value: Value)

  datatype StunError =
    | OutOfRange
    | PacketTooLong
    | TooManyAttrs
    | AttrTooLong
    | AttrNotSupported(kind: nat)

  /** The address attributes written in clear: types 1 to 5. */
  predicate IsMapped(kind: nat) { MAPPED_ADDRESS <= kind <= CHANGED_ADDRESS }

  predicate IsAddress(kind: nat) { IsMapped(kind) || kind == XOR_MAPPED_ADDRESS }

  predicate IsText(kind: nat) {
    kind in {SOFTWARE, USERNAME, PASSWORD, USE_CANDIDATE, ICE_CONTROLLED, ICE_CONTROLLING, REALM}
  }

  /** What a caller hands to the encoder; ERROR-CODE has no length there. */
  predicate WellTyped(a: AnyAttr) {
    && a.kind < U16 && a.kind != ERROR_CODE
    && if IsAddress(a.kind) then a.value.Address? && a.value.port < U16 && |a.value.ip| == 4 else a.value.Raw?
  }

  type Attr = a: AnyAttr | WellTyped(a) witness Attr(USERNAME, Raw([]))

  predicate Supported(a: Attr) { IsAddress(a.kind) || IsText(a.kind) }

  predicate AllSupported(attrs: seq<Option<Attr>>) {
    attrs == [] || ((attrs[0].Some? ==> Supported(attrs[0].value)) && AllSupported(attrs[1..]))
  }

  // ------------------------------------------------------------- layout

  function Align(offset: nat): nat {
    if offset % 4 != 0 then offset + 4 - offset % 4 else offset
  }

  function AttrLen(a: Attr): nat
  {
    if IsAddress(a.kind) then 8 else |a.value.bytes|
  }

  function AttrSpan(a: Option<Attr>): nat
  {
    if a.None? then 0 else 4 + Align(AttrLen(a.value))
  }

  /** Bytes taken by a list of attributes; absent ones take none. */
  function AttrsLen(attrs: seq<Option<Attr>>): nat
  {
    if attrs == [] then 0 else AttrSpan(attrs[0]) + AttrsLen(attrs[1..])
  }

  function ValueBytes(a: Attr): (r: Data)
    ensures |r| == AttrLen(a)
  {
    if IsMapped(a.kind) then [0, 1] + U16Bytes(a.value.port) + a.value.ip
    else if IsAddress(a.kind) then [0, 1] + U16Bytes(Xor16(a.value.port, MAGIC_PORT_KEY)) + XorData(a.value.ip, MAGIC)
    else a.value.bytes
  }

  /** Type, length, value, and zeros up to the next aligned offset. */
  function Framed(kind: nat, value: Data): (r: Data)
    requires kind < U16 && |value| < U16
    ensures |r| == 4 + Align(|value|)
  {
    U16Bytes(kind) + U16Bytes(|value|) + value + Zeros(Align(|value|) - |value|)
  }

  function AttrBytes(a: Attr): Data
    requires AttrLen(a) < U16
  {
    Framed(a.kind, ValueBytes(a))
  }

  function AttrsBytes(attrs: seq<Option<Attr>>): Data
    requires AttrsLen(attrs) < U16
  {
    if attrs == [] then []
    else if attrs[0].None? then AttrsBytes(attrs[1..])
    else AttrBytes(attrs[0].value) + AttrsBytes(attrs[1..])
  }

  /** `code & 0x0110`. */
  function MethodBits(code: nat): nat {
    code / 0x10 % 2 * 0x10 + code / 0x100 % 2 * 0x100
  }

  function Header(code: nat, attrsLen: nat, tid: Data): Data
    requires attrsLen < U16
  {
    U16Bytes(BINDING_TYPE + MethodBits(code)) + U16Bytes(attrsLen) + MAGIC + tid
  }

  /** A whole packet as bytes. */
  function Packet(code: nat, attrs: seq<Option<Attr>>, tid: Data): Data
    requires AttrsLen(attrs) < U16
  {
    Header(code, AttrsLen(attrs), tid) + AttrsBytes(attrs)
  }

  lemma {:induction false} AttrsBytesLen(attrs: seq<Option<Attr>>)
    requires AttrsLen(attrs) < U16
    ensures |AttrsBytes(attrs)| == AttrsLen(attrs)
  {
    if attrs == [] {
    } else {
      AttrsBytesLen(attrs[1..]);
      if attrs[0].Some? {
        assert |AttrBytes(attrs[0].value)| == AttrSpan(attrs[0]);
      }
    }
  }

  lemma AttrsStep(attrs: seq<Option<Attr>>, i: nat)
    requires i < |attrs| && AttrsLen(attrs[i..]) < U16
    ensures AttrsLen(attrs[i..]) == AttrSpan(attrs[i]) + AttrsLen(attrs[i + 1..])
    ensures AttrsBytes(attrs[i..])
         == (if attrs[i].Some? then AttrBytes(attrs[i].value) else []) + AttrsBytes(attrs[i + 1..])
    ensures AllSupported(attrs[i..])
       <==> (attrs[i].Some? ==> Supported(attrs[i].value)) && AllSupported(attrs[i + 1..])
  {
    var rest := attrs[i..];
    assert rest[0] == attrs[i] && rest[1..] == attrs[i + 1..];
  }

  lemma {:induction false} AttrsLenAppend(a: seq<Option<Attr>>, b: seq<Option<Attr>>)
    ensures AttrsLen(a + b) == AttrsLen(a) + AttrsLen(b)
  {
    if a == [] {
      assert a + b == b;
    } else {
      assert (a + b)[1..] == a[1..] + b;
      AttrsLenAppend(a[1..], b);
    }
  }

  lemma {:induction false} SpansAligned(attrs: seq<Option<Attr>>)
    ensures AttrsLen(attrs) % 4 == 0
  {
    if attrs == [] {
    } else {
      SpansAligned(attrs[1..]);
    }
  }

  /** Fields are 4-byte aligned, in bounds and one behind the other. */
  lemma {:induction false} Layout(attrs: seq<Option<Attr>>, i: nat)
    requires i < |attrs|
    ensures (HEADER_LENGTH + AttrsLen(attrs[..i])) % 4 == 0
    ensures AttrsLen(attrs[..i]) + AttrSpan(attrs[i]) == AttrsLen(attrs[..i + 1]) <= AttrsLen(attrs)
  {
    var before, after := attrs[..i], attrs[i + 1..];
    SpansAligned(before);
    AttrsLenAppend(before, [attrs[i]]);
    AttrsLenAppend(before + [attrs[i]], after);
    assert attrs[..i + 1] == before + [attrs[i]];
    assert attrs == before + [attrs[i]] + after;
    var one := [attrs[i]];
    assert one[1..] == [] && AttrsLen(one) == AttrSpan(attrs[i]);
  }

  // ------------------------------------------------------------- decode

  /** `buffer.slice`: indices past the end are clipped. */
  function Slice(p: Data, from: nat, to: nat): Data {
    var hi := if to < |p| then to else |p|;
    if from < hi then p[from..hi] else []
  }

  function DecodeCodes(p: Data, offset: nat, end: nat): Option<seq<nat>>
    decreases end - offset
  {
    if end <= offset then Some([])
    else if |p| < offset + 2 then None
    else match DecodeCodes(p, offset + 2, end)
      case None => None
      case Some(more) => Some([ReadU16(p, offset)] + more)
  }

  function DecodeAddress(p: Data, masked: bool, start: nat, end: nat): Result<Value, StunError>
    requires HEADER_LENGTH <= start
  {
    if |p| < start + 4 then Err(OutOfRange)
    else
      var port := if masked then Xor16(ReadU16(p, start + 2), ReadU16(p, 4)) else ReadU16(p, start + 2);
      if ReadU16(p, start) == 2 then Ok(Address6(port))
      else if masked then
        Ok(Address(port, XorData(Slice(Slice(p, start + 4, end), 0, 4), p[4..8])))
      else Ok(Address(port, Slice(p, start + 4, start + 8)))
  }

  /** The value of one attribute occupying [start, end). */
  function DecodeValue(p: Data, kind: nat, start: nat, end: nat): Result<Value, StunError>
    requires HEADER_LENGTH <= start
  {
    if IsAddress(kind) then DecodeAddress(p, kind == XOR_MAPPED_ADDRESS, start, end)
    else if kind == ERROR_CODE then
      if |p| < start + 8 then Err(OutOfRange) else Ok(ErrorBlock(ReadU32(p, start), ReadU32(p, start + 4)))
    else if kind == UNKNOWN_ATTRIBUTES then
      match DecodeCodes(p, start, end)
      case None => Err(OutOfRange)
      case Some(codes) => Ok(Codes(codes))
    else Ok(Raw(Slice(p, start, end)))
  }

  /** The attribute at `offset`, and the offset behind it. */
  function DecodeOne(p: Data, offset: nat): Result<(Decoded, nat), StunError>
    requires HEADER_LENGTH <= offset
  {
    if |p| < offset + 4 then Err(OutOfRange)
    else
      var kind, length := ReadU16(p, offset), ReadU16(p, offset + 2);
      if MAX_ATTR_LENGTH < length then Err(AttrTooLong)
      else match DecodeValue(p, kind, offset + 4, offset + 4 + length)
        case Err(e) => Err(e)
        case Ok(value) => Ok((Decoded(kind, length, value), Align(offset + 4 + length)))
  }

  function DecodeFrom(p: Data, offset: nat, end: nat, count: nat): Result<seq<Decoded>, StunError>
    requires HEADER_LENGTH <= offset
    decreases end - offset
  {
    if end <= offset then Ok([])
    else if MAX_ATTRS <= count then Err(TooManyAttrs)
    else match DecodeOne(p, offset)
      case Err(e) => Err(e)
      case Ok((one, next)) =>
        match DecodeFrom(p, next, end, count + 1)
        case Err(e) => Err(e)
        case Ok(more) => Ok([one] + more)
  }

  function DecodeAttrs(p: Data): Result<seq<Decoded>, StunError> {
    if MAX_PACKET < |p| then Err(PacketTooLong)
    else if |p| < 4 then Err(OutOfRange)
    else DecodeFrom(p, HEADER_LENGTH, HEADER_LENGTH + ReadU16(p, 2), 0)
  }

  /** What the decoder is to return: the attributes that are present, in order. */
  function Expected(attrs: seq<Option<Attr>>): seq<Decoded>
  {
    if attrs == [] then []
    else if attrs[0].None? then Expected(attrs[1..])
    else [Decoded(attrs[0].value.kind, AttrLen(attrs[0].value), attrs[0].value.value)] + Expected(attrs[1..])
  }

  predicate ShortEnough(attrs: seq<Option<Attr>>)
  {
    attrs == [] || ((attrs[0].Some? ==> AttrLen(attrs[0].value) <= MAX_ATTR_LENGTH) && ShortEnough(attrs[1..]))
  }

  /** An address decodes to what was encoded, wherever it stands in the packet. */
  lemma AddressBack(p: Data, masked: bool, port: nat, ip: Data, start: nat)
    requires port < U16 && |ip| == 4 && HEADER_LENGTH <= start && start + 8 <= |p|
    requires p[4..8] == MAGIC
    requires p[start..start + 8]
          == [0, 1] + U16Bytes(if masked then Xor16(port, MAGIC_PORT_KEY) else port) +
             if masked then XorData(ip, MAGIC) else ip
    ensures DecodeAddress(p, masked, start, start + 8) == Ok(Address(port, ip))
  {
    var v, wirePort := p[start..start + 8], if masked then Xor16(port, MAGIC_PORT_KEY) else port;
    assert forall i :: 0 <= i < 8 ==> p[start + i] == v[i];
    assert forall i :: 0 <= i < 4 ==> p[4 + i] == MAGIC[i] by {
      assert forall i :: 0 <= i < 4 ==> p[4 + i] == p[4..8][i];
    }
    assert v[2] == wirePort / 0x100 && v[3] == wirePort % 0x100;
    assert ReadU16(p, start) == 1 && ReadU16(p, start + 2) == wirePort && ReadU16(p, 4) == MAGIC_PORT_KEY;
    assert v[4..] == if masked then XorData(ip, MAGIC) else ip;
    assert p[start + 4..start + 8] == v[4..];
    if masked {
      Masked16Back(port, MAGIC_PORT_KEY);
      MaskedDataBack(ip, MAGIC);
      assert Slice(Slice(p, start + 4, start + 8), 0, 4) == XorData(ip, MAGIC);
    }
  }

  /** The fields of the attribute that starts behind `done`. */
  lemma FrameBack(p: Data, done: Data, kind: nat, value: Data, rest: Data)
    requires kind < U16 && |value| < U16
    requires |done| % 4 == 0 && p == done + Framed(kind, value) + rest
    ensures
      var offset, end := |done| + 4, |done| + 4 + |value|;
      && end <= |p| && p[offset..end] == value
      && ReadU16(p, |done|) == kind && ReadU16(p, |done| + 2) == |value|
      && Align(end) == |done| + |Framed(kind, value)|
  {
    var bytes := Framed(kind, value);
    assert bytes[0] == kind / 0x100 && bytes[1] == kind % 0x100;
    assert bytes[2] == |value| / 0x100 && bytes[3] == |value| % 0x100;
    assert forall i :: 0 <= i < |bytes| ==> p[|done| + i] == bytes[i];
    assert bytes[4..4 + |value|] == value;
    NextOffset(|done|, |value|);
  }

  lemma ValueBack(p: Data, a: Attr, start: nat)
    requires Supported(a) && HEADER_LENGTH <= start
    requires start + AttrLen(a) <= |p| && p[4..8] == MAGIC && p[start..start + AttrLen(a)] == ValueBytes(a)
    ensures DecodeValue(p, a.kind, start, start + AttrLen(a)) == Ok(a.value)
  {
    if IsAddress(a.kind) {
      AddressBack(p, a.kind == XOR_MAPPED_ADDRESS, a.value.port, a.value.ip, start);
    }
  }

  /** The decoder finds the fields of an attribute at `offset`, and goes on at `next`. */
  ghost predicate FieldsAt(p: Data, offset: nat, a: Attr, next: nat) {
    && HEADER_LENGTH <= offset && offset + 4 + AttrLen(a) <= |p|
    && ReadU16(p, offset) == a.kind && ReadU16(p, offset + 2) == AttrLen(a)
    && Align(offset + 4 + AttrLen(a)) == next
    && DecodeValue(p, a.kind, offset + 4, offset + 4 + AttrLen(a)) == Ok(a.value)
  }

  lemma FieldsBack(p: Data, done: Data, a: Attr, rest: Data)
    requires Supported(a) && AttrLen(a) < U16
    requires HEADER_LENGTH <= |done| && |done| % 4 == 0
    requires p == done + AttrBytes(a) + rest && p[4..8] == MAGIC
    ensures FieldsAt(p, |done|, a, |done + AttrBytes(a)|)
  {
    FrameBack(p, done, a.kind, ValueBytes(a), rest);
    assert p[|done| + 4..|done| + 4 + AttrLen(a)] == ValueBytes(a);
    ValueBack(p, a, |done| + 4);
  }

  lemma OneFromFields(p: Data, offset: nat, a: Attr, next: nat)
    requires FieldsAt(p, offset, a, next)
    ensures DecodeOne(p, offset)
         == if MAX_ATTR_LENGTH < AttrLen(a) then Err(AttrTooLong)
            else Ok((Decoded(a.kind, AttrLen(a), a.value), next))
  {
  }

  /** One turn of the decoding loop. */
  lemma DecodeTurn(p: Data, offset: nat, end: nat, count: nat)
    requires HEADER_LENGTH <= offset < end
    ensures
      var d, one := DecodeFrom(p, offset, end, count), DecodeOne(p, offset);
      && (d.Ok? ==> count < MAX_ATTRS && one.Ok?)
      && (count < MAX_ATTRS && one.Ok? ==>
            var more := DecodeFrom(p, one.value.1, end, count + 1);
            (d.Ok? <==> more.Ok?) && (d.Ok? ==> d.value == [one.value.0] + more.value))
  {
  }

  lemma TurnFromFields(p: Data, offset: nat, a: Attr, next: nat, count: nat)
    requires FieldsAt(p, offset, a, next)
    ensures
      var d, more := DecodeFrom(p, offset, |p|, count), DecodeFrom(p, next, |p|, count + 1);
      && (d.Ok? <==> count < MAX_ATTRS && AttrLen(a) <= MAX_ATTR_LENGTH && more.Ok?)
      && (d.Ok? ==> d.value == [Decoded(a.kind, AttrLen(a), a.value)] + more.value)
  {
    OneFromFields(p, offset, a, next);
    DecodeTurn(p, offset, |p|, count);
  }

  lemma AlignedLength(n: nat)
    ensures Align(n) % 4 == 0
  {
  }

  lemma Behind(done: Data, a: Attr)
    requires AttrLen(a) < U16 && HEADER_LENGTH <= |done| && |done| % 4 == 0
    ensures HEADER_LENGTH <= |done + AttrBytes(a)| && |done + AttrBytes(a)| % 4 == 0
    ensures |done + AttrBytes(a)| == |done| + |AttrBytes(a)| > |done|
  {
    AlignedLength(AttrLen(a));
  }

  /** The decoding loop over one encoded attribute. */
  lemma TurnBack(p: Data, done: Data, a: Attr, rest: Data, count: nat)
    requires Supported(a) && AttrLen(a) < U16
    requires HEADER_LENGTH <= |done| && |done| % 4 == 0
    requires p == done + AttrBytes(a) + rest && p[4..8] == MAGIC
    ensures
      var d, more := DecodeFrom(p, |done|, |p|, count), DecodeFrom(p, |done + AttrBytes(a)|, |p|, count + 1);
      && (d.Ok? <==> count < MAX_ATTRS && AttrLen(a) <= MAX_ATTR_LENGTH && more.Ok?)
      && (d.Ok? ==> d.value == [Decoded(a.kind, AttrLen(a), a.value)] + more.value)
  {
    FieldsBack(p, done, a, rest);
    TurnFromFields(p, |done|, a, |done + AttrBytes(a)|, count);
  }

  lemma {:induction false} AttrsBack(p: Data, done: Data, attrs: seq<Option<Attr>>, count: nat)
    requires AllSupported(attrs) && AttrsLen(attrs) < U16
    requires HEADER_LENGTH <= |done| && |done| % 4 == 0
    requires p == done + AttrsBytes(attrs) && p[4..8] == MAGIC
    ensures
      var d := DecodeFrom(p, |done|, |p|, count);
      && (d.Ok? <==> (Expected(attrs) == [] || count + |Expected(attrs)| <= MAX_ATTRS) && ShortEnough(attrs))
      && (d.Ok? ==> d.value == Expected(attrs))
    decreases |attrs|
  {
    if attrs == [] {
      assert |p| == |done|;
    } else if attrs[0].None? {
      AttrsBack(p, done, attrs[1..], count);
    } else {
      var a, bytes, rest := attrs[0].value, AttrBytes(attrs[0].value), AttrsBytes(attrs[1..]);
      Behind(done, a);
      assert p == done + bytes + rest;
      AttrsBack(p, done + bytes, attrs[1..], count + 1);
      TurnBack(p, done, a, rest, count);
    }
  }

  /** The decoder gives back exactly the attributes that were encoded, in order, and it does so
      exactly when the packet is within its limits. */
  lemma PacketRoundTrip(code: nat, attrs: seq<Option<Attr>>, tid: Data)
    requires AllSupported(attrs) && AttrsLen(attrs) < U16 && |tid| == 12
    ensures
      var p := Packet(code, attrs, tid);
      && |p| == HEADER_LENGTH + AttrsLen(attrs)
      && (DecodeAttrs(p).Ok? <==> |p| <= 512 && |Expected(attrs)| <= 11 && ShortEnough(attrs))
      && (DecodeAttrs(p).Ok? ==> DecodeAttrs(p).value == Expected(attrs))
  {
    var p, h := Packet(code, attrs, tid), Header(code, AttrsLen(attrs), tid);
    AttrsBytesLen(attrs);
    assert p[4..8] == h[4..8] == MAGIC;
    assert p[2] == h[2] && p[3] == h[3];
    assert ReadU16(p, 2) == AttrsLen(attrs);
    AttrsBack(p, h, attrs, 0);
  }

  /** On any bytes the decoder ends, with an error or with at most eleven attributes. */
  lemma {:induction false} DecodeBounded(p: Data, offset: nat, end: nat, count: nat)
    requires HEADER_LENGTH <= offset && count <= MAX_ATTRS
    ensures DecodeFrom(p, offset, end, count).Ok? ==> count + |DecodeFrom(p, offset, end, count).value| <= MAX_ATTRS
    decreases MAX_ATTRS - count
  {
    if end <= offset || count == MAX_ATTRS || DecodeOne(p, offset).Err? {
    } else {
      DecodeBounded(p, DecodeOne(p, offset).value.1, end, count + 1);
    }
  }

  /** The method field keeps the two method bits, and every packet looks like a STUN packet. */
  lemma MethodFieldBack(code: nat, attrs: seq<Option<Attr>>, tid: Data)
    requires AttrsLen(attrs) < U16
    ensures var p := Packet(code, attrs, tid);
            && GetMethod(p) == MethodBits(code) && IsStunPacket(p)
            && (code in {REQUEST, INDICATION, SUCCESS, ERROR} ==> GetMethod(p) == code)
  {
    var p, high, low := Packet(code, attrs, tid), code / 0x100 % 2, code / 0x10 % 2;
    var v := BINDING_TYPE + MethodBits(code);
    assert v == high * 0x100 + (low * 0x10 + 1);
    assert p[0] == high && p[1] == low * 0x10 + 1;
    assert ReadU16(p, 0) == v && MethodBits(v) == low * 0x10 + high * 0x100;
  }

  function GetMethod(p: Data): nat
    requires 2 <= |p|
  {
    MethodBits(ReadU16(p, 0))
  }

  /** The two top bits of the first byte are clear. */
  predicate IsStunPacket(p: Data)
    requires 1 <= |p|
  {
    p[0] / 0x80 % 2 == 0 && p[0] / 0x40 % 2 == 0
  }

  /** Only the first four of the twelve bytes of the transaction id are used as its key. */
  function TidKey(p: Data): Data { Slice(p, 8, 12) }

  /** Two packets have the same key exactly if the first four bytes of their transaction ids agree. */
  lemma KeysCollide(code: nat, attrs: seq<Option<Attr>>, tid: Data, code': nat, attrs': seq<Option<Attr>>, tid': Data)
    requires AttrsLen(attrs) < U16 && AttrsLen(attrs') < U16 && |tid| == |tid'| == 12
    ensures TidKey(Packet(code, attrs, tid)) == TidKey(Packet(code', attrs', tid')) <==> tid[..4] == tid'[..4]
  {
    TidKeyIs(code, attrs, tid);
    TidKeyIs(code', attrs', tid');
  }

  lemma TidKeyIs(code: nat, attrs: seq<Option<Attr>>, tid: Data)
    requires AttrsLen(attrs) < U16 && |tid| == 12
    ensures TidKey(Packet(code, attrs, tid)) == tid[..4]
  {
    var p := Packet(code, attrs, tid);
    assert p[8..12] == tid[..4];
  }

  /** Different transaction ids that are taken for the same one. */
  lemma DifferentIdsCollide()
    ensures
      var t, u := Zeros(12), Zeros(11) + [1];
      t != u && TidKey(Packet(REQUEST, [], t)) == TidKey(Packet(REQUEST, [], u))
  {
    var t, u := Zeros(12), Zeros(11) + [1];
    assert t[11] != u[11];
    assert t[..4] == u[..4];
    KeysCollide(REQUEST, [], t, REQUEST, [], u);
  }

  /** A reply copies the request's transaction id, so both packets have the same key. */
  lemma ReplyKeepsTid(request: Data, code: nat, attrs: seq<Option<Attr>>)
    requires AttrsLen(attrs) < U16 && HEADER_LENGTH <= |request|
    ensures TidKey(Packet(code, attrs, request[8..20])) == TidKey(request)
  {
    TidKeyIs(code, attrs, request[8..20]);
    assert request[8..20][..4] == request[8..12];
  }

  // ------------------------------------------------------- on the wire

  function FirstBytes(a: Option<Attr>): Data
    requires a.Some? ==> AttrLen(a.value) < U16
  {
    if a.None? then [] else AttrBytes(a.value)
  }

  lemma AttrsFirst(attrs: seq<Option<Attr>>)
    requires attrs != [] && AttrsLen(attrs) < U16
    ensures AttrsLen(attrs) == AttrSpan(attrs[0]) + AttrsLen(attrs[1..])
    ensures attrs[0].Some? ==> AttrLen(attrs[0].value) < U16
    ensures AttrsBytes(attrs) == FirstBytes(attrs[0]) + AttrsBytes(attrs[1..])
  {
  }

  lemma {:induction false} AttrsBytesSplit(attrs: seq<Option<Attr>>, i: nat)
    requires AttrsLen(attrs) < U16 && i <= |attrs|
    ensures AttrsLen(attrs) == AttrsLen(attrs[..i]) + AttrsLen(attrs[i..])
    ensures AttrsBytes(attrs) == AttrsBytes(attrs[..i]) + AttrsBytes(attrs[i..])
    decreases |attrs|
  {
    if i == 0 {
      assert attrs[..0] == [] && attrs[0..] == attrs;
    } else {
      var front, rest := attrs[..i], attrs[1..];
      assert front[0] == attrs[0] && front[1..] == rest[..i - 1] && rest[i - 1..] == attrs[i..];
      AttrsFirst(attrs);
      AttrsBytesSplit(rest, i - 1);
      AttrsFirst(front);
      Regroup(FirstBytes(attrs[0]), AttrsBytes(rest[..i - 1]), AttrsBytes(attrs[i..]));
    }
  }

  /** The header of section 6 of RFC 5389: type, length of what follows, magic cookie, transaction id. */
  lemma HeaderOnWire(code: nat, attrs: seq<Option<Attr>>, tid: Data)
    requires AttrsLen(attrs) < U16 && |tid| == 12
    ensures
      var p := Packet(code, attrs, tid);
      && p[2] as int * 0x100 + p[3] as int == |p| - 20
      && p[4..8] == [0x21, 0x12, 0xA4, 0x42] && p[8..20] == tid
      && (code == REQUEST ==> p[..2] == [0x00, 0x01]) && (code == INDICATION ==> p[..2] == [0x00, 0x11])
      && (code == SUCCESS ==> p[..2] == [0x01, 0x01]) && (code == ERROR ==> p[..2] == [0x01, 0x11])
  {
    var p, h := Packet(code, attrs, tid), Header(code, AttrsLen(attrs), tid);
    AttrsBytesLen(attrs);
    assert p[..20] == h && h[..2] == U16Bytes(BINDING_TYPE + MethodBits(code)) && h[2..4] == U16Bytes(AttrsLen(attrs));
    assert p[..2] == h[..2] && p[2] == h[2..4][0] && p[3] == h[2..4][1];
    assert p[4..8] == h[4..8] && p[8..20] == h[8..20];
  }

  /** Where the attribute at `i` starts in the packet. */
  function OffsetOf(attrs: seq<Option<Attr>>, i: nat): nat
    requires i <= |attrs|
  {
    HEADER_LENGTH + AttrsLen(attrs[..i])
  }

  lemma Between(front: Data, bytes: Data, back: Data)
    ensures (front + bytes + back)[|front|..|front| + |bytes|] == bytes
  {
  }

  /** The bytes of one attribute among those of all. */
  lemma AttrsBytesAt(attrs: seq<Option<Attr>>, i: nat)
    requires AttrsLen(attrs) < U16 && i < |attrs| && attrs[i].Some?
    ensures AttrLen(attrs[i].value) < U16
    ensures AttrsLen(attrs[..i]) < U16 && AttrsLen(attrs[i + 1..]) < U16
    ensures AttrsBytes(attrs) == AttrsBytes(attrs[..i]) + AttrBytes(attrs[i].value) + AttrsBytes(attrs[i + 1..])
    ensures |AttrsBytes(attrs[..i])| == AttrsLen(attrs[..i])
    ensures AttrsLen(attrs[..i + 1]) == AttrsLen(attrs[..i]) + |AttrBytes(attrs[i].value)| <= AttrsLen(attrs)
  {
    AttrsBytesSplit(attrs, i);
    AttrsBytesLen(attrs[..i]);
    AttrsStep(attrs, i);
    Layout(attrs, i);
    Regroup(AttrsBytes(attrs[..i]), AttrBytes(attrs[i].value), AttrsBytes(attrs[i + 1..]));
  }

  lemma Regroup(a: Data, b: Data, c: Data)
    ensures a + (b + c) == a + b + c
  {
  }

  lemma AttrInPacket(code: nat, attrs: seq<Option<Attr>>, tid: Data, i: nat)
    requires AttrsLen(attrs) < U16 && |tid| == 12 && i < |attrs| && attrs[i].Some?
    ensures AttrLen(attrs[i].value) < U16
    ensures OffsetOf(attrs, i + 1) == OffsetOf(attrs, i) + |AttrBytes(attrs[i].value)| <= |Packet(code, attrs, tid)|
    ensures Packet(code, attrs, tid)[OffsetOf(attrs, i)..OffsetOf(attrs, i + 1)] == AttrBytes(attrs[i].value)
  {
    AttrsBytesAt(attrs, i);
    AttrsBytesLen(attrs);
    InPacket(Header(code, AttrsLen(attrs), tid), AttrsBytes(attrs), AttrsBytes(attrs[..i]),
             AttrBytes(attrs[i].value), AttrsBytes(attrs[i + 1..]));
  }

  lemma InPacket(header: Data, all: Data, before: Data, bytes: Data, after: Data)
    requires all == before + bytes + after
    ensures
      var o := |header| + |before|;
      o + |bytes| <= |header + all| && (header + all)[o..o + |bytes|] == bytes
  {
    assert header + all == (header + before) + bytes + after;
    Between(header + before, bytes, after);
  }

  lemma FrameOnWire(bytes: Data, kind: nat, value: Data)
    requires kind < U16 && |value| < U16 && bytes == Framed(kind, value)
    ensures 4 + |value| <= |bytes| < 8 + |value|
    ensures bytes[0] as int * 0x100 + bytes[1] as int == kind && bytes[2] as int * 0x100 + bytes[3] as int == |value|
    ensures bytes[4..4 + |value|] == value
    ensures forall j :: 4 + |value| <= j < |bytes| ==> bytes[j] == 0
  {
  }

  /** Each attribute: type and length with their high bytes first, the value, and zeros up to the next one. */
  lemma AttrOnWire(code: nat, attrs: seq<Option<Attr>>, tid: Data, i: nat)
    requires AttrsLen(attrs) < U16 && |tid| == 12 && i < |attrs| && attrs[i].Some?
    ensures OffsetOf(attrs, i) <= OffsetOf(attrs, i + 1) <= |Packet(code, attrs, tid)|
    ensures
      var a, w := attrs[i].value, Packet(code, attrs, tid)[OffsetOf(attrs, i)..OffsetOf(attrs, i + 1)];
      var len := if IsAddress(a.kind) then 8 else |a.value.bytes|;
      && 4 + len <= |w| < 8 + len
      && w[0] as int * 0x100 + w[1] as int == a.kind && w[2] as int * 0x100 + w[3] as int == len
      && (!IsAddress(a.kind) ==> w[4..4 + len] == a.value.bytes)
      && forall j :: 4 + len <= j < |w| ==> w[j] == 0
  {
    AttrInPacket(code, attrs, tid, i);
    FrameOnWire(AttrBytes(attrs[i].value), attrs[i].value.kind, ValueBytes(attrs[i].value));
  }

  lemma ValueOnWire(a: Attr, j: nat)
    requires IsAddress(a.kind) && j < 4
    ensures
      var v, masked := ValueBytes(a), a.kind == XOR_MAPPED_ADDRESS;
      && v[0] == 0 && v[1] == 1
      && v[2] as int * 0x100 + v[3] as int == (if masked then Xor(a.value.port, 0x2112) else a.value.port)
      && v[4 + j] as int == (if masked then Xor(a.value.ip[j], [0x21, 0x12, 0xA4, 0x42][j]) else a.value.ip[j])
  {
  }

  /** An address (sections 15.1 and 15.2): family 1, the port, the four bytes; the masked one xored with the
      magic cookie, the port with its first half. */
  lemma AddressOnWire(code: nat, attrs: seq<Option<Attr>>, tid: Data, i: nat, j: nat)
    requires AttrsLen(attrs) < U16 && |tid| == 12 && i < |attrs| && attrs[i].Some? && j < 4
    requires IsAddress(attrs[i].value.kind)
    ensures OffsetOf(attrs, i) + 12 == OffsetOf(attrs, i + 1) <= |Packet(code, attrs, tid)|
    ensures
      var a, w := attrs[i].value, Packet(code, attrs, tid)[OffsetOf(attrs, i)..OffsetOf(attrs, i + 1)];
      var masked := a.kind == XOR_MAPPED_ADDRESS;
      && w[4] == 0 && w[5] == 1
      && w[6] as int * 0x100 + w[7] as int == (if masked then Xor(a.value.port, 0x2112) else a.value.port)
      && w[8 + j] as int == (if masked then Xor(a.value.ip[j], [0x21, 0x12, 0xA4, 0x42][j]) else a.value.ip[j])
  {
    var a := attrs[i].value;
    AttrInPacket(code, attrs, tid, i);
    FrameOnWire(AttrBytes(a), a.kind, ValueBytes(a));
    ValueOnWire(a, j);
    assert forall k :: 0 <= k < 8 ==> AttrBytes(a)[4 + k] == AttrBytes(a)[4..12][k];
  }

  // ------------------------------------------------------ attribute map

  /** The attributes ICE looks at; a later duplicate overrides an earlier one. */
  datatype AttrsMap = AttrsMap(
    address: Option<Value>, username: Option<Data>, password: Option<Data>,
    useCandidate: Option<Data>, iceControlled: Option<Data>, iceControlling: Option<Data>)

  const NO_ATTRS: AttrsMap := AttrsMap(None, None, None, None, None, None)

  function WithAttr(m: AttrsMap, a: Decoded): AttrsMap {
    if a.kind == XOR_MAPPED_ADDRESS || a.kind == MAPPED_ADDRESS then m.(address := Some(a.value))
    else if !a.value.Raw? then m
    else if a.kind == USERNAME then m.(username := Some(a.value.bytes))
    else if a.kind == PASSWORD then m.(password := Some(a.value.bytes))
    else if a.kind == USE_CANDIDATE then m.(useCandidate := Some(a.value.bytes))
    else if a.kind == ICE_CONTROLLED then m.(iceControlled := Some(a.value.bytes))
    else if a.kind == ICE_CONTROLLING then m.(iceControlling := Some(a.value.bytes))
    else m
  }

  function WithAttrs(m: AttrsMap, attrs: seq<Decoded>): AttrsMap
    decreases |attrs|
  {
    if attrs == [] then m else WithAttrs(WithAttr(m, attrs[0]), attrs[1..])
  }

  function GetAttrsMap(attrs: seq<Decoded>): AttrsMap { WithAttrs(NO_ATTRS, attrs) }

  predicate IsMapText(kind: nat) {
    kind == USERNAME || kind == PASSWORD || kind == USE_CANDIDATE || kind == ICE_CONTROLLED || kind == ICE_CONTROLLING
  }

  predicate IsMapAddress(kind: nat) { kind == XOR_MAPPED_ADDRESS || kind == MAPPED_ADDRESS }

  function TextOf(m: AttrsMap, kind: nat): Option<Data>
    requires IsMapText(kind)
  {
    if kind == USERNAME then m.username
    else if kind == PASSWORD then m.password
    else if kind == USE_CANDIDATE then m.useCandidate
    else if kind == ICE_CONTROLLED then m.iceControlled
    else m.iceControlling
  }

  /** What none of the attributes sets stays as it was. */
  lemma {:induction false} AttrsStay(m: AttrsMap, attrs: seq<Decoded>, kind: nat)
    requires forall j :: 0 <= j < |attrs| ==> attrs[j].kind != kind
    ensures IsMapText(kind) ==> TextOf(WithAttrs(m, attrs), kind) == TextOf(m, kind)
    decreases |attrs|
  {
    if attrs == [] {
    } else {
      AttrsStay(WithAttr(m, attrs[0]), attrs[1..], kind);
    }
  }

  lemma {:induction false} AddressStays(m: AttrsMap, attrs: seq<Decoded>)
    requires forall j :: 0 <= j < |attrs| ==> !IsMapAddress(attrs[j].kind)
    ensures WithAttrs(m, attrs).address == m.address
    decreases |attrs|
  {
    if attrs == [] {
    } else {
      AddressStays(WithAttr(m, attrs[0]), attrs[1..]);
    }
  }

  /** Of several attributes of one kind the last one counts, for every text the map holds. */
  lemma {:induction false} LastTextWins(m: AttrsMap, attrs: seq<Decoded>, i: nat)
    requires i < |attrs| && IsMapText(attrs[i].kind) && attrs[i].value.Raw?
    requires forall j :: i < j < |attrs| ==> attrs[j].kind != attrs[i].kind
    ensures TextOf(WithAttrs(m, attrs), attrs[i].kind) == Some(attrs[i].value.bytes)
    decreases |attrs|
  {
    if i == 0 {
      AttrsStay(WithAttr(m, attrs[0]), attrs[1..], attrs[0].kind);
    } else {
      LastTextWins(WithAttr(m, attrs[0]), attrs[1..], i - 1);
    }
  }

  /** And of several addresses, masked or not. */
  lemma {:induction false} LastAddressWins(m: AttrsMap, attrs: seq<Decoded>, i: nat)
    requires i < |attrs| && IsMapAddress(attrs[i].kind)
    requires forall j :: i < j < |attrs| ==> !IsMapAddress(attrs[j].kind)
    ensures WithAttrs(m, attrs).address == Some(attrs[i].value)
    decreases |attrs|
  {
    if i == 0 {
      AddressStays(WithAttr(m, attrs[0]), attrs[1..]);
    } else {
      LastAddressWins(WithAttr(m, attrs[0]), attrs[1..], i - 1);
    }
  }

  method ReadAttrsMap(p: Data) returns (r: Result<AttrsMap, StunError>)
    ensures match DecodeAttrs(p)
            case Ok(attrs) => r == Ok(GetAttrsMap(attrs))
            case Err(e) => r == Err(e)
  {
    var attrs := ReadAttrs(p);
    if attrs.Err? {
      return Err(attrs.error);
    }
    var m := NO_ATTRS;
    for i := 0 to |attrs.value|
      invariant WithAttrs(m, attrs.value[i..]) == GetAttrsMap(attrs.value)
    {
      assert attrs.value[i..][1..] == attrs.value[i + 1..];
      m := WithAttr(m, attrs.value[i]);
    }
    return Ok(m);
  }

  // -------------------------------------------------------- write passes

  method EncodedAttrsLen(attrs: seq<Option<Attr>>) returns (len: nat)
    ensures len == AttrsLen(attrs)
  {
    len := 0;
    for i := 0 to |attrs|
      invariant len % 4 == 0
      invariant len + AttrsLen(attrs[i..]) == AttrsLen(attrs)
    {
      assert attrs[i..][1..] == attrs[i + 1..];
      if attrs[i].Some? {
        len := Align(len + 4 + AttrLen(attrs[i].value));
      }
    }
  }

  /** Bytes written so far, zeros behind them. */
  ghost predicate Filled(buffer: array<byte>, done: Data)
    reads buffer
  {
    && |done| <= buffer.Length && buffer[..|done|] == done
    && forall i :: |done| <= i < buffer.Length ==> buffer[i] == 0
  }

  lemma FilledPast(buffer: array<byte>, done: Data, pad: nat)
    requires Filled(buffer, done) && |done| + pad <= buffer.Length
    ensures Filled(buffer, done + Zeros(pad))
  {
  }

  method Put(buffer: array<byte>, data: Data, offset: nat, ghost done: Data)
    requires Filled(buffer, done) && offset == |done| && offset + |data| <= buffer.Length
    modifies buffer
    ensures Filled(buffer, done + data)
  {
    for i := 0 to |data|
      invariant Filled(buffer, done + data[..i])
    {
      assert data[..i + 1] == data[..i] + [data[i]];
      buffer[offset + i] := data[i];
      assert buffer[..offset + i + 1] == done + data[..i + 1];
    }
    assert data[..|data|] == data;
  }

  /** Mask the four address bytes that were just written with the magic key at offset 4. */
  method MaskAddress(buffer: array<byte>, from: nat, ghost done: Data, ghost ip: Data)
    requires |ip| == 4 && 8 <= |done| == from && Filled(buffer, done + ip)
    requires done[4..8] == MAGIC
    modifies buffer
    ensures Filled(buffer, done + XorData(ip, MAGIC))
  {
    var k := 4;
    for i := 0 to 4
      invariant k == 4 + i
      invariant Filled(buffer, done + XorData(ip, MAGIC)[..i] + ip[i..])
    {
      assert buffer[from + i] == ip[i];
      assert buffer[k] == done[4..8][i];
      buffer[from + i] := XorByte(buffer[from + i], buffer[k]);
      k := k + 1;
      assert XorData(ip, MAGIC)[..i + 1] == XorData(ip, MAGIC)[..i] + [XorData(ip, MAGIC)[i]];
      assert buffer[..from + 4] == done + XorData(ip, MAGIC)[..i + 1] + ip[i + 1..];
    }
    assert XorData(ip, MAGIC)[..4] == XorData(ip, MAGIC);
  }

  method EncodeAddress(buffer: array<byte>, a: Attr, offset: nat, ghost done: Data)
    requires IsAddress(a.kind)
    requires Filled(buffer, done) && offset == |done| && offset + 8 <= buffer.Length
    requires HEADER_LENGTH <= |done| && done[4..8] == MAGIC
    modifies buffer
    ensures Filled(buffer, done + ValueBytes(a))
  {
    Put(buffer, [0, 1], offset, done);
    if IsMapped(a.kind) {
      Put(buffer, U16Bytes(a.value.port), offset + 2, done + [0, 1]);
      Put(buffer, a.value.ip, offset + 4, done + [0, 1] + U16Bytes(a.value.port));
      assert done + ValueBytes(a) == done + [0, 1] + U16Bytes(a.value.port) + a.value.ip;
    } else {
      assert buffer[4] == done[4..8][0] && buffer[5] == done[4..8][1];
      var key := buffer[4] as int * 0x100 + buffer[5] as int;
      var port := U16Bytes(Xor16(a.value.port, key));
      Put(buffer, port, offset + 2, done + [0, 1]);
      ghost var before := done + [0, 1] + port;
      Put(buffer, a.value.ip, offset + 4, before);
      MaskAddress(buffer, offset + 4, before, a.value.ip);
      assert done + ValueBytes(a) == before + XorData(a.value.ip, MAGIC);
    }
  }

  method PutU16(buffer: array<byte>, n: nat, offset: nat, ghost done: Data)
    requires n < U16 && Filled(buffer, done) && offset == |done| && offset + 2 <= buffer.Length
    modifies buffer
    ensures Filled(buffer, done + U16Bytes(n))
  {
    Put(buffer, U16Bytes(n), offset, done);
  }

  lemma NextOffset(offset: nat, length: nat)
    requires offset % 4 == 0
    ensures Align(offset + 4 + length) == offset + 4 + Align(length)
    ensures Align(offset + 4 + length) % 4 == 0
  {
  }

  lemma KeyStays(d: Data, e: Data)
    requires 8 <= |d|
    ensures (d + e)[4..8] == d[4..8]
  {
  }

  method EncodeValue(buffer: array<byte>, a: Attr, offset: nat, ghost done: Data)
    requires Supported(a) && HEADER_LENGTH <= |done| && done[4..8] == MAGIC
    requires Filled(buffer, done) && offset == |done| && offset + AttrLen(a) <= buffer.Length
    modifies buffer
    ensures Filled(buffer, done + ValueBytes(a))
  {
    if IsAddress(a.kind) {
      EncodeAddress(buffer, a, offset, done);
    } else {
      Put(buffer, a.value.bytes, offset, done);
    }
  }

  /** One attribute, leaving the bytes up to the next aligned offset zero. */
  method EncodeAttr(buffer: array<byte>, a: Attr, offset: nat, ghost done: Data) returns (next: nat)
    requires Supported(a) && AttrLen(a) < U16
    requires HEADER_LENGTH <= |done| && done[4..8] == MAGIC && offset == |done| && offset % 4 == 0
    requires Filled(buffer, done) && offset + AttrSpan(Some(a)) <= buffer.Length
    modifies buffer
    ensures Filled(buffer, done + AttrBytes(a))
    ensures next == offset + AttrSpan(Some(a)) && next % 4 == 0
  {
    var length := AttrLen(a);
    PutU16(buffer, a.kind, offset, done);
    PutU16(buffer, length, offset + 2, done + U16Bytes(a.kind));
    ghost var head := U16Bytes(a.kind) + U16Bytes(length);
    assert done + U16Bytes(a.kind) + U16Bytes(length) == done + head;
    KeyStays(done, head);
    EncodeValue(buffer, a, offset + 4, done + head);
    next := Align(offset + 4 + length);
    NextOffset(offset, length);
    assert done + head + ValueBytes(a) == done + U16Bytes(a.kind) + U16Bytes(length) + ValueBytes(a);
    FrameFilled(buffer, done, a.kind, ValueBytes(a));
  }

  lemma FrameFilled(buffer: array<byte>, done: Data, kind: nat, value: Data)
    requires kind < U16 && |value| < U16 && |done| + 4 + Align(|value|) <= buffer.Length
    requires Filled(buffer, done + U16Bytes(kind) + U16Bytes(|value|) + value)
    ensures Filled(buffer, done + Framed(kind, value))
  {
    var written, pad := done + U16Bytes(kind) + U16Bytes(|value|) + value, Align(|value|) - |value|;
    FilledPast(buffer, written, pad);
    assert done + Framed(kind, value) == written + Zeros(pad);
  }

  /** `done` is written; with the bytes of the attributes to come it fills the buffer as `whole`. */
  ghost predicate Written(buffer: array<byte>, done: Data, coming: Data, whole: Data)
    reads buffer
  {
    && HEADER_LENGTH <= |done| && |done| % 4 == 0 && done[4..8] == MAGIC
    && Filled(buffer, done) && |whole| == buffer.Length && done + coming == whole
  }

  method EncodeNext(buffer: array<byte>, a: Attr, offset: nat, ghost done: Data, ghost coming: Data, ghost whole: Data)
    returns (next: nat)
    requires Supported(a) && AttrLen(a) < U16
    requires Written(buffer, done, AttrBytes(a) + coming, whole) && offset == |done|
    modifies buffer
    ensures Written(buffer, done + AttrBytes(a), coming, whole) && next == |done + AttrBytes(a)|
  {
    ghost var bytes := AttrBytes(a);
    assert done + (bytes + coming) == (done + bytes) + coming;
    assert |bytes| == AttrSpan(Some(a));
    KeyStays(done, bytes);
    next := EncodeAttr(buffer, a, offset, done);
  }

  /** The write pass: one attribute after the other, skipping absent ones. */
  method EncodeAttrs(buffer: array<byte>, attrs: seq<Option<Attr>>, ghost header: Data)
    returns (error: Option<StunError>)
    requires AttrsLen(attrs) < U16
    requires |header| == HEADER_LENGTH && header[4..8] == MAGIC && Filled(buffer, header)
    requires buffer.Length == HEADER_LENGTH + AttrsLen(attrs)
    modifies buffer
    ensures error == None <==> AllSupported(attrs)
    ensures error == None ==> buffer[..] == header + AttrsBytes(attrs)
  {
    var offset := HEADER_LENGTH;
    ghost var done, whole := header, header + AttrsBytes(attrs);
    AttrsBytesLen(attrs);
    for i := 0 to |attrs|
      invariant AllSupported(attrs) <==> AllSupported(attrs[i..])
      invariant AttrsLen(attrs[i..]) < U16
      invariant Written(buffer, done, AttrsBytes(attrs[i..]), whole) && offset == |done|
    {
      AttrsStep(attrs, i);
      if attrs[i].Some? {
        if !Supported(attrs[i].value) {
          return Some(AttrNotSupported(attrs[i].value.kind));
        }
        ghost var bytes := AttrBytes(attrs[i].value);
        offset := EncodeNext(buffer, attrs[i].value, offset, done, AttrsBytes(attrs[i + 1..]), whole);
        done := done + bytes;
      }
    }
    assert done == whole;
    return None;
  }

  /** Build a packet; `tid` is random for a request and copied from the request for a reply. */
  method NewPacket(code: nat, attrs: seq<Option<Attr>>, tid: Data) returns (r: Result<array<byte>, StunError>)
    requires |tid| == 12
    ensures r.Ok? <==> AttrsLen(attrs) < U16 && AllSupported(attrs)
    ensures r.Ok? ==> fresh(r.value) && r.value[..] == Packet(code, attrs, tid)
  {
    var attrsLen := EncodedAttrsLen(attrs);
    if U16 <= attrsLen {
      return Err(OutOfRange);
    }
    var buffer := new byte[HEADER_LENGTH + attrsLen](_ => 0);
    var methodField := U16Bytes(BINDING_TYPE + MethodBits(code));
    Put(buffer, methodField, 0, []);
    Put(buffer, U16Bytes(attrsLen), 2, [] + methodField);
    Put(buffer, MAGIC, 4, [] + methodField + U16Bytes(attrsLen));
    Put(buffer, tid, 8, [] + methodField + U16Bytes(attrsLen) + MAGIC);
    ghost var header := Header(code, attrsLen, tid);
    assert header == [] + methodField + U16Bytes(attrsLen) + MAGIC + tid;
    var error := EncodeAttrs(buffer, attrs, header);
    if error.Some? {
      return Err(error.value);
    }
    return Ok(buffer);
  }

  /** What is read so far, with what the rest gives, is the whole result. */
  ghost predicate ReadSoFar(whole: Result<seq<Decoded>, StunError>, p: Data, attrs: seq<Decoded>, offset: nat, end: nat)
    requires HEADER_LENGTH <= offset
  {
    whole == match DecodeFrom(p, offset, end, |attrs|)
             case Ok(more) => Ok(attrs + more)
             case Err(e) => Err(e)
  }

  lemma ReadOneMore(whole: Result<seq<Decoded>, StunError>, p: Data, attrs: seq<Decoded>, offset: nat, end: nat)
    requires HEADER_LENGTH <= offset < end && ReadSoFar(whole, p, attrs, offset, end) && |attrs| < MAX_ATTRS
    ensures match DecodeOne(p, offset)
            case Ok((one, next)) => HEADER_LENGTH <= next && ReadSoFar(whole, p, attrs + [one], next, end)
            case Err(e) => whole == Err(e)
  {
    match DecodeOne(p, offset)
    case Err(_) =>
    case Ok((one, next)) =>
      match DecodeFrom(p, next, end, |attrs| + 1)
      case Err(_) =>
      case Ok(more) => assert attrs + ([one] + more) == attrs + [one] + more;
  }

  /** The read loop. */
  method ReadAttrs(p: Data) returns (r: Result<seq<Decoded>, StunError>)
    ensures r == DecodeAttrs(p)
    ensures r.Ok? ==> |r.value| <= MAX_ATTRS
  {
    if MAX_PACKET < |p| {
      return Err(PacketTooLong);
    }
    if |p| < 4 {
      return Err(OutOfRange);
    }
    var attrs: seq<Decoded> := [];
    var offset: nat, end: nat := HEADER_LENGTH, HEADER_LENGTH + ReadU16(p, 2);
    assert forall more: seq<Decoded> :: attrs + more == more;
    while offset < end
      invariant HEADER_LENGTH <= offset && |attrs| <= MAX_ATTRS
      invariant ReadSoFar(DecodeAttrs(p), p, attrs, offset, end)
    {
      if |attrs| > 10 {
        return Err(TooManyAttrs);
      }
      ReadOneMore(DecodeAttrs(p), p, attrs, offset, end);
      if |p| < offset + 4 {
        return Err(OutOfRange);
      }
      var kind, length := ReadU16(p, offset), ReadU16(p, offset + 2);
      if length > 256 {
        return Err(AttrTooLong);
      }
      var next := offset + 4 + length;
      var value := DecodeValue(p, kind, offset + 4, next);
      if value.Err? {
        return Err(value.error);
      }
      attrs := attrs + [Decoded(kind, length, value.value)];
      offset := Align(next);
    }
    assert attrs + [] == attrs;
    return Ok(attrs);
  }
}
