/** Requests and replies with named attachments (src/rpc/rpc_request.js). */
module RpcRequest {
  import opened Wrappers
  import opened Bytes
  import opened Buffers
  import opened RpcMessage

  datatype Attachment = Attachment(name: string, data: Data)

  /** A value with the attachments stored under its RPC_BUFFERS symbol. */
  datatype Payload<V> = Payload(value: V, buffers: Option<seq<Attachment>>)

  ghost predicate DistinctNames(a: seq<Attachment>) {
    forall i, j :: 0 <= i < j < |a| ==> a[i].name != a[j].name
  }

  ghost predicate WellNamed<V>(p: Option<Payload<V>>) {
    p.Some? && p.value.buffers.Some? ==> DistinctNames(p.value.buffers.value)
  }

  function Descriptors(a: seq<Attachment>): seq<Descriptor> {
    seq(|a|, i requires 0 <= i < |a| => Descriptor(a[i].name, |a[i].data|))
  }

  function Contents(a: seq<Attachment>): seq<Data> {
    seq(|a|, i requires 0 <= i < |a| => a[i].data)
  }

  function PayloadValue<V>(p: Option<Payload<V>>): Option<V> {
    if p.Some? then Some(p.value.value) else None
  }

  function PayloadBuffers<V>(p: Option<Payload<V>>): Option<seq<Attachment>> {
    if p.Some? then p.value.buffers else None
  }

  function NonEmpty(s: Option<string>): Option<string> {
    if s == Some("") then None else s
  }

  function WithBuffers<V>(body: Body<V>, buffers: Option<seq<Attachment>>): Message<V> {
    match buffers
    case None => Message(body, [])
    case Some(a) => Message(body.(buffers := Some(Descriptors(a))), Contents(a))
  }

  function RequestMessage<V>(reqid: string, api: string, meth: string,
                             params: Option<Payload<V>>, authToken: Option<string>): Message<V>
  {
    WithBuffers(
      Body("req", reqid, Some(api), Some(meth), PayloadValue(params), NonEmpty(authToken),
           None, None, None, None),
      PayloadBuffers(params))
  }

  /** What a request ends up holding about its outcome. */
  datatype Outcome<V> = Replied(reply: Option<Payload<V>>) | Failed(error: ErrorInfo<V>)

  function ResponseMessage<V>(reqid: string, took: int, outcome: Outcome<V>): Message<V> {
    var body := Body("res", reqid, None, None, None, None, Some(took), None, None, None);
    match outcome
    case Failed(e) => Message(body.(error := Some(e)), [])
    case Replied(reply) => WithBuffers(body.(reply := PayloadValue(reply)), PayloadBuffers(reply))
  }

  /** The RpcError constructor: some message is always there. */
  function RpcError<V>(e: ErrorInfo<V>): ErrorInfo<V> {
    if e.message != "" then e
    else if e.code.Some? && e.code.value != "" then e.(message := e.code.value)
    else e.(message := "UNKNOWN RPC ERROR")
  }

  /** Assignment to a named property: an existing name keeps its place. */
  function SetNamed(a: seq<Attachment>, name: string, data: Data): seq<Attachment> {
    if a == [] then [Attachment(name, data)]
    else if a[0].name == name then [Attachment(name, data)] + a[1..]
    else [a[0]] + SetNamed(a[1..], name, data)
  }

  /** Attachments cut from the front of `parts` in the order of their descriptors. */
  function Taken(descs: seq<Descriptor>, acc: seq<Attachment>, parts: seq<Data>): (seq<Attachment>, seq<Data>)
    decreases |descs|
  {
    if descs == [] then (acc, parts)
    else
      var (data, rest) := ExtractJoined(parts, descs[0].len);
      Taken(descs[1..], SetNamed(acc, descs[0].name, data), rest)
  }

  /** Attaching the buffers to a decoded value; None is the type error on an absent value. */
  function Attached<V>(value: Option<V>, descs: Option<seq<Descriptor>>, parts: seq<Data>): Option<Option<Payload<V>>> {
    match descs
    case None => Some(if value.Some? then Some(Payload(value.value, None)) else None)
    case Some(ds) =>
      if value == None then None
      else Some(Some(Payload(value.value, Some(Taken(ds, [], parts).0))))
  }

  lemma {:induction false} SetNewName(a: seq<Attachment>, name: string, data: Data)
    requires forall i :: 0 <= i < |a| ==> a[i].name != name
    ensures SetNamed(a, name, data) == a + [Attachment(name, data)]
  {
    if a == [] {
    } else {
      SetNewName(a[1..], name, data);
    }
  }

  /** The first attachment is cut off and takes its place behind those already there. */
  lemma FirstTaken(a: seq<Attachment>, acc: seq<Attachment>, parts: seq<Data>)
    requires a != [] && DistinctNames(acc + a) && Flatten(parts) == Flatten(Contents(a))
    ensures
      var rest := ExtractJoined(parts, |a[0].data|).1;
      && Flatten(rest) == Flatten(Contents(a[1..]))
      && Taken(Descriptors(a), acc, parts) == Taken(Descriptors(a[1..]), acc + [a[0]], rest)
  {
    assert Contents(a)[0] == a[0].data && Contents(a)[1..] == Contents(a[1..]);
    assert Descriptors(a)[1..] == Descriptors(a[1..]);
    ExtractFront(parts, a[0].data, Flatten(Contents(a[1..])));
    forall i | 0 <= i < |acc| ensures acc[i].name != a[0].name {
      assert (acc + a)[i] == acc[i] && (acc + a)[|acc|] == a[0];
    }
    SetNewName(acc, a[0].name, a[0].data);
  }

  lemma {:induction false} TakenBack(a: seq<Attachment>, acc: seq<Attachment>, parts: seq<Data>)
    requires DistinctNames(acc + a)
    requires Flatten(parts) == Flatten(Contents(a))
    ensures Taken(Descriptors(a), acc, parts).0 == acc + a
    ensures Flatten(Taken(Descriptors(a), acc, parts).1) == []
    decreases |a|
  {
    if a == [] {
      assert acc + a == acc;
    } else {
      var front, tail := acc + [a[0]], a[1..];
      assert front + tail == acc + a;
      FirstTaken(a, acc, parts);
      TakenBack(tail, front, ExtractJoined(parts, |a[0].data|).1);
    }
  }

  lemma AttachedBack<V>(p: Option<Payload<V>>, parts: seq<Data>)
    requires WellNamed(p)
    requires var b := PayloadBuffers(p); Flatten(parts) == if b.Some? then Flatten(Contents(b.value)) else []
    ensures
      var b := PayloadBuffers(p);
      Attached(PayloadValue(p), if b.Some? then Some(Descriptors(b.value)) else None, parts) == Some(p)
  {
    var b := PayloadBuffers(p);
    if b.Some? {
      assert [] + b.value == b.value;
      TakenBack(b.value, [], parts);
    }
  }

  /** Attaching fails exactly when there are attachments and no value to attach them to. */
  lemma AttachesToValues<V>(value: Option<V>, descs: Option<seq<Descriptor>>, parts: seq<Data>)
    ensures Attached(value, descs, parts) == None <==> value == None && descs.Some?
    ensures Attached(value, descs, parts).Some? ==> PayloadValue(Attached(value, descs, parts).value) == value
  {
  }

  function Lookup(a: seq<Attachment>, name: string): Option<Data> {
    if a == [] then None else if a[0].name == name then Some(a[0].data) else Lookup(a[1..], name)
  }

  /** Of attachments with one name the last one counts, and no other name is touched. */
  lemma {:induction false} LastNameCounts(a: seq<Attachment>, name: string, data: Data, other: string)
    ensures Lookup(SetNamed(a, name, data), other) == if other == name then Some(data) else Lookup(a, other)
    ensures |SetNamed(a, name, data)| == |a| + (if Lookup(a, name).None? then 1 else 0)
  {
    if a == [] {
    } else if a[0].name == name {
      assert ([Attachment(name, data)] + a[1..])[1..] == a[1..];
    } else {
      LastNameCounts(a[1..], name, data, other);
      assert ([a[0]] + SetNamed(a[1..], name, data))[1..] == SetNamed(a[1..], name, data);
    }
  }

  /** What the receiver of a request reads is what was sent; an empty token is none. */
  ghost predicate ArrivesAsRequest<V>(m: Message<V>, reqid: string, api: string, meth: string,
                                      params: Option<Payload<V>>, authToken: Option<string>) {
    && m.body.op == "req" && m.body.reqid == reqid && m.body.api == Some(api) && m.body.meth == Some(meth)
    && (authToken.Some? && authToken.value != "" ==> m.body.authToken == authToken)
    && (authToken == None || authToken == Some("") ==> m.body.authToken == None)
    && Attached(m.body.params, m.body.buffers, m.buffers) == Some(params)
  }

  /** A request keeps its id, route, token, parameters and every attachment by name,
      over any re-fragmentation of its bytes. */
  lemma RequestRoundTrip<V(!new)>(c: Codec<V>, reqid: string, api: string, meth: string,
                                  params: Option<Payload<V>>, authToken: Option<string>, parts: seq<Data>)
    requires Faithful(c) && WellNamed(params)
    requires var e := Encode(c, RequestMessage(reqid, api, meth, params, authToken));
             e.Some? && Flatten(parts) == Flatten(e.value)
    ensures
      var d := Decode(c, parts);
      d.Ok? && ArrivesAsRequest(d.value, reqid, api, meth, params, authToken)
  {
    MessageRoundTrip(c, RequestMessage(reqid, api, meth, params, authToken), parts);
    AttachedBack(params, Decode(c, parts).value.buffers);
  }

  /** What `_set_response` reads from a decoded message; None is the type error. */
  function ReadResponse<V>(body: Body<V>, parts: seq<Data>): Option<Outcome<V>> {
    if body.error.Some? then Some(Failed(RpcError(body.error.value)))
    else match Attached(body.reply, body.buffers, parts)
      case None => None
      case Some(reply) => Some(Replied(reply))
  }

  /** A reply arrives as it was sent; an error with its code and data, and with its message or, if that is
      empty, its code or else a fixed text in place of it. */
  ghost predicate ArrivesAsOutcome<V>(read: Option<Outcome<V>>, sent: Outcome<V>) {
    match sent
    case Replied(_) => read == Some(sent)
    case Failed(e) =>
      && read.Some? && read.value.Failed?
      && read.value.error.code == e.code && read.value.error.data == e.data
      && read.value.error.message
         == (if e.message != "" then e.message
             else if e.code == None || e.code == Some("") then "UNKNOWN RPC ERROR" else e.code.value)
  }

  ghost predicate ArrivesAsResponse<V>(m: Message<V>, reqid: string, took: int, outcome: Outcome<V>) {
    && m.body.op == "res" && m.body.reqid == reqid && m.body.took == Some(took)
    && ArrivesAsOutcome(ReadResponse(m.body, m.buffers), outcome)
  }

  /** Any reply and any error come back, over any re-fragmentation. */
  lemma ResponseRoundTrip<V(!new)>(c: Codec<V>, reqid: string, took: int, outcome: Outcome<V>, parts: seq<Data>)
    requires Faithful(c)
    requires outcome.Replied? ==> WellNamed(outcome.reply)
    requires var e := Encode(c, ResponseMessage(reqid, took, outcome));
             e.Some? && Flatten(parts) == Flatten(e.value)
    ensures
      var d := Decode(c, parts);
      d.Ok? && ArrivesAsResponse(d.value, reqid, took, outcome)
  {
    MessageRoundTrip(c, ResponseMessage(reqid, took, outcome), parts);
    if outcome.Replied? {
      AttachedBack(outcome.reply, Decode(c, parts).value.buffers);
    }
  }

  /** The request object of either side. */
  class Request<V> {
    var reqid: string
    var api: string
    var meth: string
    var params: Option<Payload<V>>
    var authToken: Option<string>
    var settled: Option<Outcome<V>>

    constructor (api: string, meth: string, params: Option<Payload<V>>, authToken: Option<string>)
      ensures this.api == api && this.meth == meth && this.params == params && this.authToken == authToken
      ensures settled == None
    {
      this.reqid := "";
      this.api := api;
      this.meth := meth;
      this.params := params;
      this.authToken := authToken;
      this.settled := None;
    }

    /** Cut the attachments out of the message's buffers. */
    method TakeAttachments(descs: seq<Descriptor>, list: BufferList) returns (buffers: seq<Attachment>)
      modifies list
      ensures (buffers, list.parts) == Taken(descs, [], old(list.parts))
    {
      buffers := [];
      var i := 0;
      while i < |descs|
        invariant i <= |descs|
        invariant Taken(descs[i..], buffers, list.parts) == Taken(descs, [], old(list.parts))
      {
        assert descs[i..][1..] == descs[i + 1..];
        var data := list.ExtractJoin(descs[i].len);
        buffers := SetNamed(buffers, descs[i].name, data);
        i := i + 1;
      }
    }

    /** Fill this request from a received message; false is the type error. */
    method SetRequest(body: Body<V>, list: BufferList) returns (ok: bool)
      modifies this, list
      ensures reqid == body.reqid && authToken == body.authToken
      ensures ok <==> Attached(body.params, body.buffers, old(list.parts)).Some?
      ensures ok ==> params == Attached(body.params, body.buffers, old(list.parts)).value
      ensures api == old(api) && meth == old(meth) && settled == old(settled)
    {
      reqid := body.reqid;
      authToken := body.authToken;
      params := if body.params.Some? then Some(Payload(body.params.value, None)) else None;
      ok := true;
      if body.buffers.Some? {
        var buffers := TakeAttachments(body.buffers.value, list);
        if params == None {
          return false;
        }
        params := Some(params.value.(buffers := Some(buffers)));
      }
    }

    /** Settle this request from a received message, unless it is settled already. */
    method SetResponse(body: Body<V>, list: BufferList) returns (wasPending: bool)
      modifies this`settled, list
      ensures wasPending == (old(settled) == None)
      ensures !wasPending ==> settled == old(settled) && list.parts == old(list.parts)
      ensures wasPending ==> settled == ReadResponse(body, old(list.parts))
    {
      wasPending := settled == None;
      if !wasPending {
        return;
      }
      if body.error.Some? {
        settled := Some(Failed(RpcError(body.error.value)));
      } else {
        var reply := if body.reply.Some? then Some(Payload(body.reply.value, None)) else None;
        if body.buffers.Some? {
          var buffers := TakeAttachments(body.buffers.value, list);
          if reply == None {
            return;
          }
          reply := Some(reply.value.(buffers := Some(buffers)));
        }
        settled := Some(Replied(reply));
      }
    }
  }
}
