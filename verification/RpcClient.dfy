/** The client side of an RPC object: its connection pool, pending requests, pings and reconnects
    (src/rpc/rpc.js), as values. Code between two awaits is one step. */
module RpcClient {
  import opened Wrappers
  import opened Bytes
  import Backoff
  import Conns = RpcBaseConn

  const PING_EXHAUSTED_COUNT: nat := 8

  /** Object identities. */
  type ConnId = nat
  type ReqKey = nat

  /** A connection with the fields the RPC object adds to it. `accepted` tells that the listeners and
      the request map are installed, `trying` counts the reconnect attempts under way, and `failures`, for
      the statements only, the reconnects in a row that led here. */
  datatype Link = Link(
    href: string, connid: string, conn: Conns.Conn, accepted: bool, sent: map<string, ReqKey>,
    pinging: bool, pings: Option<set<string>>,
    timer: Option<real>, trying: nat, backoff: real, failures: nat, noReconnect: bool)

  datatype Phase = Connecting | Sending | Waiting | Released

  datatype Cause = ByResponse | ByClose

  /** `settled` is how the response promise was settled, if it was. */
  datatype Req = Req(conn: ConnId, seqno: nat, reqid: string, phase: Phase, settled: Option<Cause>)

  datatype Rpc = Rpc(
    links: map<ConnId, Link>, pool: map<string, ConnId>, reqs: map<ReqKey, Req>,
    disconnected: bool, nextConn: nat, routerDefault: string)

  predicate StartsWith(s: string, prefix: string) { prefix <= s }

  /** Http connections live for one request and are never pooled. */
  predicate Transient(href: string) { StartsWith(href, "http:") || StartsWith(href, "https:") }

  predicate Closed(l: Link) { l.conn.state == Conns.Closed }

  function WithLink(r: Rpc, c: ConnId, l: Link): Rpc { r.(links := r.links[c := l]) }

  function WithConn(r: Rpc, c: ConnId, conn: Conns.Conn): Rpc
    requires c in r.links
  {
    WithLink(r, c, r.links[c].(conn := conn))
  }

  function WithPhase(r: Rpc, q: ReqKey, phase: Phase): Rpc
    requires q in r.reqs
  {
    r.(reqs := r.reqs[q := r.reqs[q].(phase := phase)])
  }

  // -------------------------------------------------------- connections

  function NewLink(href: string, id: ConnId, up: bool): Link {
    Link(href, href + "(" + ToDecimal(id) + ")", if up then Conns.OnConnect(Conns.NEW_CONN) else Conns.NEW_CONN,
         false, map[], false, None, None, 0, 0.0, 0, false)
  }

  /** A new connection is closed at once in the disconnected state; otherwise it is accepted. */
  function Entered(l: Link, disconnected: bool): Link {
    if disconnected then l.(conn := Conns.CloseConn(l.conn))
    else l.(accepted := true, pinging := !Transient(l.href))
  }

  function Joined(r: Rpc, l: Link, pooled: bool): Rpc {
    r.(links := r.links[r.nextConn := l], nextConn := r.nextConn + 1,
       pool := if pooled then r.pool[l.href := r.nextConn] else r.pool)
  }

  /** An accepted connection takes the place of the pooled connection of its address. */
  function AddConnection(r: Rpc, href: string, up: bool): Rpc {
    Joined(r, Entered(NewLink(href, r.nextConn, up), r.disconnected), !r.disconnected && !Transient(href))
  }

  function GetConnection(r: Rpc, href: string): (rc: (Rpc, ConnId))
    ensures rc.1 in rc.0.links
  {
    if href in r.pool && r.pool[href] in r.links && !Closed(r.links[r.pool[href]]) then (r, r.pool[href])
    else (AddConnection(r.(pool := r.pool - {href}), href, false), r.nextConn)
  }

  // ------------------------------------------------------------ closing

  function Settle(q: Req, cause: Cause): Req {
    if q.settled.None? then q.(settled := Some(cause)) else q
  }

  function RejectAll(reqs: map<ReqKey, Req>, pending: set<ReqKey>): map<ReqKey, Req> {
    map q | q in reqs :: if q in pending then Settle(reqs[q], ByClose) else reqs[q]
  }

  /** A connection closes; this is all of it but the reconnect. */
  function Shut(r: Rpc, c: ConnId): Rpc
    requires c in r.links
  {
    var l := r.links[c];
    var closed := l.(conn := Conns.CloseConn(l.conn));
    if !l.accepted then WithLink(r, c, closed)
    else
      WithLink(r, c, closed.(pinging := false, timer := None)).(
        pool := if !Transient(l.href) && l.href in r.pool && r.pool[l.href] == c then r.pool - {l.href} else r.pool,
        reqs := RejectAll(r.reqs, l.sent.Values))
  }

  function Reconnect(r: Rpc, href: string, backoff: real, failures: nat): Rpc {
    var delay := Backoff.Delay(backoff);
    var (s, c) := GetConnection(r, href);
    if s.links[c].timer.Some? then s
    else WithLink(s, c, s.links[c].(backoff := Backoff.Increased(delay), failures := failures + 1,
                                    timer := Some(delay)))
  }

  function CloseLink(r: Rpc, c: ConnId): Rpc
    requires c in r.links
  {
    var l := r.links[c];
    if Closed(l) then r
    else if l.accepted && !l.noReconnect && StartsWith(l.href, r.routerDefault) then
      Reconnect(Shut(r, c), l.href, l.backoff, l.failures)
    else Shut(r, c)
  }

  predicate PooledAt(r: Rpc, hrefs: set<string>, c: ConnId) {
    exists h :: h in hrefs && h in r.pool && r.pool[h] == c
  }

  /** A request that one of these pooled connections waits for. */
  predicate PendingAt(r: Rpc, hrefs: set<string>, q: ReqKey) {
    exists h :: h in hrefs && h in r.pool && r.pool[h] in r.links && q in r.links[r.pool[h]].sent.Values
  }

  function ClosedForGood(l: Link): Link {
    l.(noReconnect := true, conn := Conns.CloseConn(l.conn), pinging := false, timer := None)
  }

  /** The connections pooled at these addresses close for good. */
  function Disconnect(r: Rpc, hrefs: set<string>): Rpc {
    r.(links := map c | c in r.links :: if PooledAt(r, hrefs, c) then ClosedForGood(r.links[c]) else r.links[c],
       reqs := map q | q in r.reqs :: if PendingAt(r, hrefs, q) then Settle(r.reqs[q], ByClose) else r.reqs[q],
       pool := r.pool - hrefs)
  }

  function DisconnectAll(r: Rpc): Rpc { Disconnect(r, r.pool.Keys) }

  // ----------------------------------------------------------- requests

  function Assign(r: Rpc, q: ReqKey, c: ConnId): Rpc
    requires c in r.links
  {
    var l := r.links[c];
    var reqid := Conns.Reqid(l.conn.nextSeq, l.connid);
    WithLink(r, c, l.(conn := Conns.AllocReqid(l.conn), sent := l.sent[reqid := q])).(
      reqs := r.reqs[q := Req(c, l.conn.nextSeq, reqid, Connecting, None)])
  }

  /** Assign a connection and start connecting it. */
  function StartOn(r: Rpc, q: ReqKey, c: ConnId): Rpc
    requires c in r.links
  {
    var s := Assign(r, q, c);
    WithConn(s, c, Conns.ConnectCall(s.links[c].conn).0)
  }

  function Start(r: Rpc, q: ReqKey, href: string): Rpc {
    if r.disconnected then r
    else
      var (s, c) := GetConnection(r, href);
      StartOn(s, q, c)
  }

  function Release(r: Rpc, q: ReqKey): Rpc
    requires q in r.reqs && r.reqs[q].conn in r.links
  {
    var l := r.links[r.reqs[q].conn];
    WithPhase(WithLink(r, r.reqs[q].conn, l.(sent := l.sent - {r.reqs[q].reqid})), q, Released)
  }

  /** Connecting is over, well or badly: send, which refuses a connection that is not connected. */
  function AfterConnect(r: Rpc, q: ReqKey): Rpc
    requires q in r.reqs && r.reqs[q].conn in r.links
  {
    if r.links[r.reqs[q].conn].conn.state == Conns.Connected then WithPhase(r, q, Sending) else Release(r, q)
  }

  /** Sending is over. A failure closes the connection and is not reported to the request. */
  function AfterSend(r: Rpc, q: ReqKey, ok: bool): Rpc
    requires q in r.reqs && r.reqs[q].conn in r.links
  {
    WithPhase(if ok then r else CloseLink(r, r.reqs[q].conn), q, Waiting)
  }

  /** The request that a response is for is still pending. */
  predicate IsPending(r: Rpc, c: ConnId, reqid: string)
    requires c in r.links
  {
    var sent := r.links[c].sent;
    reqid in sent && sent[reqid] in r.reqs && r.reqs[sent[reqid]].settled.None?
  }

  function Answer(r: Rpc, c: ConnId, reqid: string): Rpc
    requires c in r.links && IsPending(r, c, reqid)
  {
    var q := r.links[c].sent[reqid];
    r.(reqs := r.reqs[q := r.reqs[q].(settled := Some(ByResponse))])
  }

  /** A response is not readable if it has attachments and nothing to attach them to (no ReadResponse of
      RpcRequest); reading it for a pending request is an error, which closes the connection. */
  function OnResponse(r: Rpc, c: ConnId, reqid: string, readable: bool): Rpc
    requires c in r.links
  {
    if !IsPending(r, c, reqid) then r
    else if readable then Answer(r, c, reqid)
    else CloseLink(r, c)
  }

  // --------------------------------------------------- pings, reconnects

  function Pinged(r: Rpc, c: ConnId): Rpc
    requires c in r.links
  {
    var l := r.links[c];
    var pings := if l.pings.Some? then l.pings.value else {};
    WithLink(r, c, l.(conn := Conns.AllocReqid(l.conn),
                      pings := Some(pings + {Conns.Reqid(l.conn.nextSeq, l.connid)})))
  }

  /** Send one more ping, or give up on the connection when too many are not answered. */
  function PingTick(r: Rpc, c: ConnId): Rpc
    requires c in r.links
  {
    var s := Pinged(r, c);
    if |s.links[c].pings.value| > PING_EXHAUSTED_COUNT then CloseLink(s, c) else s
  }

  /** A pong on a connection that never pinged is an error there. */
  function OnPong(r: Rpc, c: ConnId, reqid: string): Rpc
    requires c in r.links
  {
    var l := r.links[c];
    if l.pings.None? then CloseLink(r, c)
    else WithLink(r, c, l.(pings := Some(l.pings.value - {reqid})))
  }

  /** The attempt of a reconnect: connect, if the connection is still the pooled one. */
  function Tried(l: Link): Link {
    l.(conn := Conns.ConnectCall(l.conn).0, trying := l.trying + 1)
  }

  function TimerFires(r: Rpc, c: ConnId): Rpc
    requires c in r.links
  {
    var (s, d) := GetConnection(WithLink(r, c, r.links[c].(timer := None)), r.links[c].href);
    if d != c then s else WithLink(s, c, Tried(s.links[c]))
  }

  /** An attempt succeeded: no backoff is carried on. The timer may have been armed again meanwhile. */
  function Reconnected(r: Rpc, c: ConnId): Rpc
    requires c in r.links && r.links[c].trying > 0
  {
    var l := r.links[c];
    WithLink(r, c, l.(trying := l.trying - 1, backoff := 0.0, failures := 0))
  }

  // -------------------------------------------------------------- steps

  datatype Event =
    | StartsByAddress(q: ReqKey, href: string)
    | StartsOn(q: ReqKey, c: ConnId)
    | ConnectEnds(q: ReqKey)
    | SendEnds(q: ReqKey, ok: bool)
    | GetsReply(q: ReqKey)
    | GivesUp(q: ReqKey)
    | Incoming(href: string, up: bool)
    | IsConnected(c: ConnId)
    | Fails(c: ConnId)
    | Response(c: ConnId, reqid: string, readable: bool)
    | IdUsed(c: ConnId)
    | PingIsDue(c: ConnId)
    | Pong(c: ConnId, reqid: string)
    | ReconnectIsDue(c: ConnId)
    | ReconnectWorked(c: ConnId)
    | DisconnectedStateSet(on: bool)
    | RouterSet(routerDefault: string)

  /** Listeners are installed by Accept, so messages reach accepted connections only; a request's
      await ends when what it waits for is settled. */
  predicate Enabled(r: Rpc, e: Event) {
    match e
    case StartsByAddress(q, _) => q !in r.reqs
    case StartsOn(q, c) => q !in r.reqs && c in r.links && r.links[c].accepted && !r.disconnected
    case ConnectEnds(q) =>
      && q in r.reqs && r.reqs[q].phase == Connecting && r.reqs[q].conn in r.links
      && !r.links[r.reqs[q].conn].conn.held
    case SendEnds(q, _) => q in r.reqs && r.reqs[q].phase == Sending && r.reqs[q].conn in r.links
    case GetsReply(q) =>
      q in r.reqs && r.reqs[q].phase == Waiting && r.reqs[q].settled.Some? && r.reqs[q].conn in r.links
    case GivesUp(q) => q in r.reqs && r.reqs[q].phase != Released && r.reqs[q].conn in r.links
    case Incoming(_, _) => true
    case IsConnected(c) => c in r.links
    case Fails(c) => c in r.links
    case Response(c, _, _) => c in r.links && r.links[c].accepted
    case IdUsed(c) => c in r.links
    case PingIsDue(c) => c in r.links && r.links[c].pinging
    case Pong(c, _) => c in r.links && r.links[c].accepted
    case ReconnectIsDue(c) => c in r.links && r.links[c].timer.Some?
    case ReconnectWorked(c) => c in r.links && r.links[c].trying > 0 && r.links[c].conn.defer == Conns.Resolved
    case DisconnectedStateSet(_) => true
    case RouterSet(_) => true
  }

  function React(r: Rpc, e: Event): Rpc
    requires Enabled(r, e)
  {
    match e
    case StartsByAddress(q, href) => Start(r, q, href)
    case StartsOn(q, c) => StartOn(r, q, c)
    case ConnectEnds(q) => AfterConnect(r, q)
    case SendEnds(q, ok) => AfterSend(r, q, ok)
    case GetsReply(q) => Release(r, q)
    case GivesUp(q) => Release(r, q)
    case Incoming(href, up) => AddConnection(r, href, up)
    case IsConnected(c) => WithConn(r, c, Conns.OnConnect(r.links[c].conn))
    case Fails(c) => CloseLink(r, c)
    case Response(c, reqid, readable) => OnResponse(r, c, reqid, readable)
    case IdUsed(c) => WithConn(r, c, Conns.AllocReqid(r.links[c].conn))
    case PingIsDue(c) => PingTick(r, c)
    case Pong(c, reqid) => OnPong(r, c, reqid)
    case ReconnectIsDue(c) => TimerFires(r, c)
    case ReconnectWorked(c) => Reconnected(r, c)
    case DisconnectedStateSet(on) => if on then DisconnectAll(r.(disconnected := true)) else r.(disconnected := false)
    case RouterSet(routerDefault) => r.(routerDefault := routerDefault)
  }

  predicate Initial(r: Rpc) {
    r.links == map[] && r.pool == map[] && r.reqs == map[] && !r.disconnected
  }
}
