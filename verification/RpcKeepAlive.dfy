/** The pings of the client: how many may be without an answer. */
module RpcKeepAlive {
  import opened Wrappers
  import Conns = RpcBaseConn
  import opened RpcClient
  import opened RpcClientRuns

  /** An id that this connection has handed out. */
  ghost predicate HandedOut(l: Link, id: string) {
    exists n: nat :: n < l.conn.nextSeq && id == Conns.Reqid(n, l.connid)
  }

  ghost predicate FewPings(l: Link) {
    && (!Closed(l) && l.pings.Some? ==> |l.pings.value| <= 8)
    && (l.pings.Some? ==> forall id :: id in l.pings.value ==> HandedOut(l, id))
  }

  ghost predicate PingsOk(r: Rpc) {
    forall c :: c in r.links ==> FewPings(r.links[c])
  }

  /** Connections keep their pings and ids, closed ones stay closed, and new ones have no pings. */
  ghost predicate PingsStay(r: Rpc, s: Rpc) {
    && (forall c :: c in r.links ==> c in s.links && SamePings(r.links[c], s.links[c]))
    && (forall c :: c in s.links && c !in r.links ==> s.links[c].pings == None)
  }

  /** The next connection is a new one, as in every reachable state. */
  predicate NextIsNew(r: Rpc) { r.nextConn !in r.links }

  lemma InvNextIsNew(r: Rpc)
    requires Inv(r)
    ensures NextIsNew(r)
  {
    assert r.nextConn in r.links ==> LinkOk(r, r.nextConn);
  }

  predicate SamePings(k: Link, l: Link) {
    && l.pings == k.pings && l.connid == k.connid && k.conn.nextSeq <= l.conn.nextSeq
    && (Closed(k) ==> Closed(l))
  }

  lemma FewPingsStay(k: Link, l: Link)
    requires FewPings(k) && SamePings(k, l)
    ensures FewPings(l)
  {
    if l.pings.Some? {
      forall id | id in l.pings.value ensures HandedOut(l, id) {
        assert HandedOut(k, id);
      }
    }
  }

  lemma PingsStayOk(r: Rpc, s: Rpc)
    requires PingsOk(r) && PingsStay(r, s)
    ensures PingsOk(s)
  {
    forall c | c in s.links ensures FewPings(s.links[c]) {
      if c in r.links {
        FewPingsStay(r.links[c], s.links[c]);
      }
    }
  }

  lemma GetPingsStay(r: Rpc, href: string)
    requires NextIsNew(r)
    ensures PingsStay(r, GetConnection(r, href).0)
  {
  }

  lemma ShutPingsStay(r: Rpc, c: ConnId)
    requires c in r.links
    ensures PingsStay(r, Shut(r, c))
  {
  }

  lemma ReconnectPingsStay(r: Rpc, href: string, backoff: real, failures: nat)
    requires NextIsNew(r)
    ensures PingsStay(r, Reconnect(r, href, backoff, failures))
  {
    GetPingsStay(r, href);
  }

  lemma PingsStayTransitive(r: Rpc, s: Rpc, t: Rpc)
    requires PingsStay(r, s) && PingsStay(s, t)
    ensures PingsStay(r, t)
  {
  }

  lemma ClosePingsStay(r: Rpc, c: ConnId)
    requires c in r.links && NextIsNew(r)
    ensures PingsStay(r, CloseLink(r, c))
  {
    var l, s := r.links[c], Shut(r, c);
    ShutPingsStay(r, c);
    ReconnectPingsStay(s, l.href, l.backoff, l.failures);
    PingsStayTransitive(r, s, Reconnect(s, l.href, l.backoff, l.failures));
  }

  lemma StartPingsStay(r: Rpc, q: ReqKey, href: string)
    requires NextIsNew(r)
    ensures PingsStay(r, Start(r, q, href))
  {
    GetPingsStay(r, href);
  }

  lemma TimerPingsStay(r: Rpc, c: ConnId)
    requires c in r.links && NextIsNew(r)
    ensures PingsStay(r, TimerFires(r, c))
  {
    var s := WithLink(r, c, r.links[c].(timer := None));
    LinkPingsStay(r, c, s.links[c]);
    GetPingsStay(s, r.links[c].href);
    var (t, d) := GetConnection(s, r.links[c].href);
    PingsStayTransitive(r, s, t);
    if d == c {
      LinkPingsStay(t, c, Tried(t.links[c]));
      PingsStayTransitive(r, t, TimerFires(r, c));
    }
  }

  lemma SendPingsStay(r: Rpc, q: ReqKey, ok: bool)
    requires q in r.reqs && r.reqs[q].conn in r.links && NextIsNew(r)
    ensures PingsStay(r, AfterSend(r, q, ok))
  {
    ClosePingsStay(r, r.reqs[q].conn);
  }

  lemma ClosesPinged(r: Rpc, c: ConnId)
    requires Inv(r) && c in r.links
    ensures c in CloseLink(Pinged(r, c), c).links && Closed(CloseLink(Pinged(r, c), c).links[c])
  {
    assert LinkOk(r, c);
    LinkChangeKeeps(r, c, Pinged(r, c).links[c]);
    CloseKeeps(Pinged(r, c), c);
  }

  /** The next ping is one more without an answer, whatever was answered before. */
  lemma PingIsNew(r: Rpc, c: ConnId)
    requires c in r.links && FewPings(r.links[c])
    ensures
      var l, m := r.links[c], Pinged(r, c).links[c];
      && |m.pings.value| == (if l.pings.Some? then |l.pings.value| else 0) + 1
      && forall id :: id in m.pings.value ==> HandedOut(m, id)
  {
    var l, m := r.links[c], Pinged(r, c).links[c];
    var id := Conns.Reqid(l.conn.nextSeq, l.connid);
    if l.pings.Some? && id in l.pings.value {
      assert HandedOut(l, id);
      var n: nat :| n < l.conn.nextSeq && id == Conns.Reqid(n, l.connid);
      Conns.ReqidInjective(n, l.conn.nextSeq, l.connid);
    }
    forall i | i in m.pings.value ensures HandedOut(m, i) {
      if i != id {
        assert HandedOut(l, i);
      }
    }
  }

  /** What the others keep while a connection pings. */
  lemma PingedOthers(r: Rpc, c: ConnId, s: Rpc, d: ConnId)
    requires c in r.links && PingsOk(r) && PingsStay(Pinged(r, c), s) && d in s.links
    requires d == c ==> Closed(s.links[c]) || |Pinged(r, c).links[c].pings.value| <= PING_EXHAUSTED_COUNT
    ensures FewPings(s.links[d])
  {
    PingIsNew(r, c);
    if d in r.links {
      if d != c {
        FewPingsStay(r.links[d], s.links[d]);
      } else {
        forall id | id in s.links[c].pings.value ensures HandedOut(s.links[c], id) {
          assert HandedOut(Pinged(r, c).links[c], id);
        }
      }
    }
  }

  lemma PingTickOk(r: Rpc, c: ConnId)
    requires Inv(r) && c in r.links && PingsOk(r)
    ensures PingsOk(PingTick(r, c))
  {
    var s := PingTick(r, c);
    InvNextIsNew(r);
    ClosePingsStay(Pinged(r, c), c);
    ClosesPinged(r, c);
    assert PingsStay(Pinged(r, c), Pinged(r, c));
    forall d | d in s.links ensures FewPings(s.links[d]) {
      PingedOthers(r, c, s, d);
    }
  }

  lemma AnsweredPing(l: Link, reqid: string)
    requires FewPings(l) && l.pings.Some?
    ensures FewPings(l.(pings := Some(l.pings.value - {reqid})))
  {
    var m := l.(pings := Some(l.pings.value - {reqid}));
    assert m.pings.value <= l.pings.value;
    Smaller(m.pings.value, l.pings.value);
    forall id | id in m.pings.value ensures HandedOut(m, id) {
      assert HandedOut(l, id);
    }
  }

  lemma {:induction false} Smaller(a: set<string>, b: set<string>)
    requires a <= b
    ensures |a| <= |b|
  {
    if a == {} {
    } else {
      var x :| x in a;
      Smaller(a - {x}, b - {x});
    }
  }

  lemma PongOk(r: Rpc, c: ConnId, reqid: string)
    requires c in r.links && PingsOk(r) && NextIsNew(r)
    ensures PingsOk(OnPong(r, c, reqid))
  {
    if r.links[c].pings.None? {
      ClosePingsStay(r, c);
      PingsStayOk(r, CloseLink(r, c));
    } else {
      AnsweredPing(r.links[c], reqid);
    }
  }

  lemma StartOnPingsStay(r: Rpc, q: ReqKey, c: ConnId)
    requires c in r.links
    ensures PingsStay(r, StartOn(r, q, c))
  {
  }

  lemma DisconnectPingsStay(r: Rpc)
    ensures PingsStay(r, DisconnectAll(r))
  {
  }

  lemma RequestPingsStay(r: Rpc, e: Event)
    requires Enabled(r, e) && (e.ConnectEnds? || e.GetsReply? || e.GivesUp?)
    ensures PingsStay(r, React(r, e))
  {
  }

  lemma LinkPingsStay(r: Rpc, c: ConnId, l: Link)
    requires c in r.links && SamePings(r.links[c], l)
    ensures PingsStay(r, WithLink(r, c, l))
  {
  }

  lemma AddPingsStay(r: Rpc, href: string, up: bool)
    requires NextIsNew(r)
    ensures PingsStay(r, AddConnection(r, href, up))
  {
  }

  lemma StepPingsStay(r: Rpc, e: Event)
    requires Enabled(r, e) && !e.PingIsDue? && !e.Pong? && NextIsNew(r)
    ensures PingsStay(r, React(r, e))
  {
    match e
    case StartsByAddress(q, href) => StartPingsStay(r, q, href);
    case SendEnds(q, ok) => SendPingsStay(r, q, ok);
    case Fails(c) => ClosePingsStay(r, c);
    case Response(c, _, _) => ClosePingsStay(r, c);
    case ReconnectIsDue(c) => TimerPingsStay(r, c);
    case StartsOn(q, c) => StartOnPingsStay(r, q, c);
    case DisconnectedStateSet(on) => DisconnectPingsStay(r.(disconnected := true));
    case Incoming(href, up) => AddPingsStay(r, href, up);
    case IsConnected(c) => LinkPingsStay(r, c, React(r, e).links[c]);
    case IdUsed(c) => LinkPingsStay(r, c, React(r, e).links[c]);
    case ReconnectWorked(c) => LinkPingsStay(r, c, React(r, e).links[c]);
    case RouterSet(_) =>
    case _ => RequestPingsStay(r, e);
  }

  lemma StepPingsOk(r: Rpc, e: Event)
    requires Inv(r) && Enabled(r, e) && PingsOk(r)
    ensures PingsOk(React(r, e))
  {
    InvNextIsNew(r);
    if e.PingIsDue? {
      PingTickOk(r, e.c);
    } else if e.Pong? {
      PongOk(r, e.c, e.reqid);
    } else {
      StepPingsStay(r, e);
      PingsStayOk(r, React(r, e));
    }
  }

  /** In no run does an open connection have more than eight pings without an answer. */
  lemma {:induction false} PingsAreFew(run: seq<Rpc>, k: nat)
    requires IsRun(run) && k < |run|
    ensures PingsOk(run[k])
  {
    if k == 0 {
    } else {
      PingsAreFew(run, k - 1);
      RunKeeps(run, k - 1);
      assert StepAt(run, k - 1);
      var e :| Enabled(run[k - 1], e) && run[k] == React(run[k - 1], e);
      StepPingsOk(run[k - 1], e);
    }
  }

  /** In every run, one more ping closes an open connection exactly when eight are already unanswered. */
  lemma NinthPingCloses(run: seq<Rpc>, k: nat, c: ConnId)
    requires IsRun(run) && k < |run| && c in run[k].links && !Closed(run[k].links[c])
    ensures c in PingTick(run[k], c).links
    ensures Closed(PingTick(run[k], c).links[c]) <==>
            run[k].links[c].pings.Some? && |run[k].links[c].pings.value| == 8
  {
    RunKeeps(run, k);
    PingsAreFew(run, k);
    PingIsNew(run[k], c);
    ClosesPinged(run[k], c);
  }

  // ------------------------------------------------------ unanswered pings

  ghost predicate Unanswered(r: Rpc, c: ConnId, id: string) {
    c in r.links && r.links[c].pings.Some? && id in r.links[c].pings.value
  }

  /** The connection sends a ping with this id now. */
  ghost predicate SendsPing(r: Rpc, e: Event, c: ConnId, id: string) {
    e == PingIsDue(c) && c in r.links && id == Conns.Reqid(r.links[c].conn.nextSeq, r.links[c].connid)
  }

  lemma PingTickPings(r: Rpc, c: ConnId, d: ConnId, id: string)
    requires Inv(r) && Enabled(r, PingIsDue(c))
    ensures Unanswered(PingTick(r, c), d, id) <==> Unanswered(r, d, id) || SendsPing(r, PingIsDue(c), d, id)
  {
    var p := Pinged(r, c);
    InvNextIsNew(r);
    assert NextIsNew(p);
    ClosePingsStay(p, c);
    assert Unanswered(p, d, id) <==> Unanswered(r, d, id) || SendsPing(r, PingIsDue(c), d, id);
  }

  lemma PongPings(r: Rpc, c: ConnId, reqid: string, d: ConnId, id: string)
    requires Inv(r) && Enabled(r, Pong(c, reqid))
    ensures Unanswered(OnPong(r, c, reqid), d, id) <==> Unanswered(r, d, id) && !(d == c && id == reqid)
  {
    InvNextIsNew(r);
    if r.links[c].pings.None? {
      ClosePingsStay(r, c);
    }
  }

  lemma StepPings(r: Rpc, e: Event, c: ConnId, id: string)
    requires Inv(r) && Enabled(r, e)
    ensures Unanswered(React(r, e), c, id) <==>
            e != Pong(c, id) && (Unanswered(r, c, id) || SendsPing(r, e, c, id))
  {
    if e.PingIsDue? {
      PingTickPings(r, e.c, c, id);
    } else if e.Pong? {
      PongPings(r, e.c, e.reqid, c, id);
    } else {
      OtherPings(r, e, c, id);
    }
  }

  lemma OtherPings(r: Rpc, e: Event, c: ConnId, id: string)
    requires Inv(r) && Enabled(r, e) && !e.PingIsDue? && !e.Pong?
    ensures Unanswered(React(r, e), c, id) <==> Unanswered(r, c, id)
  {
    InvNextIsNew(r);
    StepPingsStay(r, e);
    assert c in r.links ==> c in React(r, e).links && SamePings(r.links[c], React(r, e).links[c]);
  }

  /** A ping was sent in step m, and no pong with its id has come on its connection since. */
  ghost predicate PingedAt(run: seq<Rpc>, events: seq<Event>, m: nat, n: nat, c: ConnId, id: string) {
    && m < n <= |events| < |run| && SendsPing(run[m], events[m], c, id)
    && forall j :: m < j < n ==> events[j] != Pong(c, id)
  }

  /** In every run the pings of a connection are those that were sent on it and not answered by a pong with
      their own id on that connection. */
  lemma {:induction false} PingsAreUnanswered(run: seq<Rpc>, events: seq<Event>, n: nat, c: ConnId, id: string)
    requires IsTrace(run, events) && n < |run|
    ensures Unanswered(run[n], c, id) <==> exists m: nat :: PingedAt(run, events, m, n, c, id)
  {
    if n == 0 {
    } else {
      PingsAreUnanswered(run, events, n - 1, c, id);
      TraceIsRun(run, events);
      RunKeeps(run, n - 1);
      assert Stepped(run, events, n - 1);
      StepPings(run[n - 1], events[n - 1], c, id);
      PingedNext(run, events, n - 1, n, c, id);
    }
  }

  lemma PingedNext(run: seq<Rpc>, events: seq<Event>, k: nat, n: nat, c: ConnId, id: string)
    requires n == k + 1 <= |events| < |run|
    ensures (exists m: nat :: PingedAt(run, events, m, n, c, id)) <==>
            && events[k] != Pong(c, id)
            && (SendsPing(run[k], events[k], c, id) || exists m: nat :: PingedAt(run, events, m, k, c, id))
  {
    if m: nat :| PingedAt(run, events, m, n, c, id) {
      assert m == k || PingedAt(run, events, m, k, c, id);
    }
    if SendsPing(run[k], events[k], c, id) {
      assert PingedAt(run, events, k, n, c, id);
    }
    if m: nat :| PingedAt(run, events, m, k, c, id) {
      assert events[k] != Pong(c, id) ==> PingedAt(run, events, m, n, c, id);
    }
  }
}
