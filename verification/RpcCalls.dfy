/** What each step of a request, of an incoming connection and of a reconnect does to the client (src/rpc/rpc.js). */
module RpcCalls {
  import opened Wrappers
  import Conns = RpcBaseConn
  import opened RpcClient
  import opened RpcClientRuns

  // ------------------------------------------------------------ starting

  /** The request is new, waits for its connection to connect, and is known to it under its id. */
  ghost predicate Begun(r: Rpc, q: ReqKey) {
    && q in r.reqs && r.reqs[q].phase == Connecting && r.reqs[q].settled == None
    && r.reqs[q].conn in r.links
    && var l, id := r.links[r.reqs[q].conn], r.reqs[q].reqid;
       && l.accepted && id in l.sent && l.sent[id] == q
       && (l.conn.state == Conns.Connecting || l.conn.state == Conns.Connected)
  }

  /** Of the requests only `q` is new, of the connections only that of `q` may have changed. */
  ghost predicate OnlyBegins(r: Rpc, s: Rpc, q: ReqKey)
    requires q in s.reqs
  {
    && s.reqs.Keys == r.reqs.Keys + {q} && (forall j :: j in r.reqs ==> s.reqs[j] == r.reqs[j])
    && s.links.Keys == r.links.Keys + {s.reqs[q].conn}
    && (forall d :: d in r.links && d != s.reqs[q].conn ==> s.links[d] == r.links[d])
    && s.disconnected == r.disconnected && s.routerDefault == r.routerDefault
  }

  lemma BeginsOn(r: Rpc, q: ReqKey, c: ConnId)
    requires q !in r.reqs && c in r.links && LinkOk(r, c) && r.links[c].accepted && !Closed(r.links[c])
    ensures
      var s := StartOn(r, q, c);
      && Begun(s, q) && OnlyBegins(r, s, q) && s.reqs[q].conn == c
      && s.links[c].href == r.links[c].href && s.pool == r.pool
  {
  }

  lemma PooledOrNew(r: Rpc, href: string)
    requires Inv(r)
    ensures GetConnection(r, href).1 == (if href in r.pool then r.pool[href] else r.nextConn) && r.nextConn !in r.links
  {
    assert href in r.pool ==> PoolOk(r, href);
    assert r.nextConn in r.links ==> LinkOk(r, r.nextConn);
  }

  lemma GetsForAddress(r: Rpc, href: string)
    requires Inv(r) && !r.disconnected
    ensures
      var (s, c) := GetConnection(r, href);
      && c == (if href in r.pool then r.pool[href] else r.nextConn)
      && s.pool == (if Transient(href) then r.pool else r.pool[href := c])
      && s.reqs == r.reqs && s.links.Keys == r.links.Keys + {c} && s.routerDefault == r.routerDefault
  {
    if href in r.pool {
      assert PoolOk(r, href);
      assert r.pool[href := r.pool[href]] == r.pool;
    } else {
      assert r.(pool := r.pool - {href}).pool == r.pool;
    }
  }

  /** A request by address gets the pooled connection of that very address, or a new one that is pooled unless it is
      transient; while the client is disconnected it starts nothing. */
  lemma StartsOnItsAddress(r: Rpc, q: ReqKey, href: string)
    requires Inv(r) && Enabled(r, StartsByAddress(q, href))
    ensures
      var s := React(r, StartsByAddress(q, href));
      if r.disconnected then s == r
      else
        && Begun(s, q) && OnlyBegins(r, s, q) && s.links[s.reqs[q].conn].href == href
        && s.reqs[q].conn == (if href in r.pool then r.pool[href] else r.nextConn)
        && s.pool == (if Transient(href) then r.pool else r.pool[href := s.reqs[q].conn])
  {
    if !r.disconnected {
      var (s, c) := GetConnection(r, href);
      GetKeeps(r, href);
      GetsForAddress(r, href);
      assert LinkOk(s, c);
      BeginsOn(s, q, c);
    }
  }

  /** In every run, a request that started by address stays on a connection of that address. */
  lemma StaysOnItsAddress(run: seq<Rpc>, events: seq<Event>, m: nat, n: nat, q: ReqKey, href: string)
    requires IsTrace(run, events) && m < n < |run| && events[m] == StartsByAddress(q, href) && !run[m].disconnected
    ensures q in run[m + 1].reqs && q in run[n].reqs
    ensures run[n].reqs[q].conn == run[m + 1].reqs[q].conn && run[n].reqs[q].reqid == run[m + 1].reqs[q].reqid
    ensures run[n].reqs[q].conn in run[n].links && run[n].links[run[n].reqs[q].conn].href == href
  {
    TraceIsRun(run, events);
    RunKeeps(run, m);
    assert Stepped(run, events, m);
    StartsOnItsAddress(run[m], q, href);
    RunMoves(run, m + 1, n);
    assert ReqMoves(run[m + 1], run[n], q) && LinkMoves(run[m + 1], run[n], run[m + 1].reqs[q].conn);
  }

  // ------------------------------------------------------ going on, ending

  /** The request is released, and of the ids its connection waits for only its own is gone. */
  ghost predicate Ends(r: Rpc, s: Rpc, q: ReqKey)
    requires q in r.reqs && r.reqs[q].conn in r.links
  {
    var c := r.reqs[q].conn;
    && s.reqs == r.reqs[q := r.reqs[q].(phase := Released)] && s.pool == r.pool && s.links.Keys == r.links.Keys
    && r.reqs[q].reqid !in s.links[c].sent
    && (forall id :: id in r.links[c].sent && id != r.reqs[q].reqid ==>
          id in s.links[c].sent && s.links[c].sent[id] == r.links[c].sent[id])
    && s.links[c] == r.links[c].(sent := s.links[c].sent)
    && (forall d :: d in r.links && d != c ==> s.links[d] == r.links[d])
  }

  /** Once connecting is over the request is sent exactly if its connection is connected; otherwise it ends. */
  lemma ConnectedIsSent(r: Rpc, q: ReqKey)
    requires Enabled(r, ConnectEnds(q))
    ensures
      var s := React(r, ConnectEnds(q));
      if r.links[r.reqs[q].conn].conn.state == Conns.Connected
      then s == r.(reqs := r.reqs[q := r.reqs[q].(phase := Sending)])
      else Ends(r, s, q)
  {
  }

  /** A request that was sent waits for its response; one that failed to be sent waits on a closed connection, and is
      settled. */
  lemma SentWaits(r: Rpc, q: ReqKey, ok: bool)
    requires Inv(r) && Enabled(r, SendEnds(q, ok))
    ensures
      var s := React(r, SendEnds(q, ok));
      && q in s.reqs && s.reqs[q].phase == Waiting && s.reqs[q].conn == r.reqs[q].conn
      && (ok ==> s == r.(reqs := r.reqs[q := r.reqs[q].(phase := Waiting)]))
      && (!ok ==> r.reqs[q].conn in s.links && Closed(s.links[r.reqs[q].conn]) && s.reqs[q].settled.Some?)
  {
    AfterSendKeeps(r, q, ok);
    var s := React(r, SendEnds(q, ok));
    assert ReqMoves(r, s, q) && ReqOk(s, q);
    if !ok {
      CloseKeeps(r, r.reqs[q].conn);
      assert s.links == CloseLink(r, r.reqs[q].conn).links;
    }
  }

  /** A request that gets its reply, or gives up at any point, ends. */
  lemma RequestEnds(r: Rpc, e: Event, q: ReqKey)
    requires Enabled(r, e) && (e == GetsReply(q) || e == GivesUp(q))
    ensures Ends(r, React(r, e), q)
  {
  }

  // ---------------------------------------------- connections, reconnects

  /** A connection that comes in is accepted and takes the place of the pooled one of its address, unless the client
      is disconnected: then it is closed at once and not pooled. */
  lemma ComesIn(r: Rpc, href: string, up: bool)
    requires Inv(r)
    ensures
      var s, c := React(r, Incoming(href, up)), r.nextConn;
      && c !in r.links && s.links.Keys == r.links.Keys + {c} && s.reqs == r.reqs
      && (forall d :: d in r.links ==> s.links[d] == r.links[d])
      && s.links[c].href == href && s.links[c].sent == map[] && s.links[c].timer == None && s.links[c].pings == None
      && if r.disconnected then Closed(s.links[c]) && !s.links[c].accepted && s.pool == r.pool
         else
           && s.links[c].accepted && s.links[c].conn.state == (if up then Conns.Connected else Conns.Init)
           && s.pool == (if Transient(href) then r.pool else r.pool[href := c])
           && (s.links[c].pinging <==> !Transient(href))
  {
    assert r.nextConn in r.links ==> LinkOk(r, r.nextConn);
    IsAdded(r, href, up);
  }

  lemma IsAdded(r: Rpc, href: string, up: bool)
    requires r.nextConn !in r.links
    ensures
      var s, c := AddConnection(r, href, up), r.nextConn;
      && s.links == r.links[c := s.links[c]] && s.reqs == r.reqs
      && s.links[c].href == href && s.links[c].sent == map[] && s.links[c].timer == None && s.links[c].pings == None
      && if r.disconnected then Closed(s.links[c]) && !s.links[c].accepted && s.pool == r.pool
         else
           && s.links[c].accepted && s.links[c].conn.state == (if up then Conns.Connected else Conns.Init)
           && s.pool == (if Transient(href) then r.pool else r.pool[href := c])
           && (s.links[c].pinging <==> !Transient(href))
  {
  }

  predicate IsPooled(r: Rpc, c: ConnId) {
    c in r.links && r.links[c].href in r.pool && r.pool[r.links[c].href] == c
  }

  lemma PooledAtItsAddress(r: Rpc, c: ConnId)
    requires Core(r) && c in r.links
    ensures PooledAt(r, r.pool.Keys, c) <==> IsPooled(r, c)
  {
    if h :| h in r.pool.Keys && h in r.pool && r.pool[h] == c {
      assert PoolOk(r, h);
    }
  }

  lemma PendingAtPooled(r: Rpc, q: ReqKey)
    requires Core(r) && q in r.reqs
    ensures PendingAt(r, r.pool.Keys, q) <==> IsPooled(r, r.reqs[q].conn) && r.reqs[q].phase != Released
  {
    assert ReqOk(r, q);
    PooledAtItsAddress(r, r.reqs[q].conn);
    if h :| h in r.pool.Keys && h in r.pool && r.pool[h] in r.links && q in r.links[r.pool[h]].sent.Values {
      RejectedMoves(r, r.pool[h], q);
      RejectedIsNotReleased(r, r.pool[h], q);
    }
    if IsPooled(r, r.reqs[q].conn) && r.reqs[q].phase != Released {
      RejectedMoves(r, r.reqs[q].conn, q);
    }
  }

  /** What disconnecting makes of a connection and of a request. */
  ghost predicate DisconnectedAt(r: Rpc, s: Rpc, c: ConnId, q: ReqKey)
    requires c in r.links && q in r.reqs
  {
    && c in s.links && q in s.reqs
    && (if IsPooled(r, c)
        then Closed(s.links[c]) && s.links[c].noReconnect && s.links[c].timer == None && !s.links[c].pinging
        else s.links[c] == r.links[c])
    && s.reqs[q] == (if r.reqs[q].settled.None? && IsPooled(r, r.reqs[q].conn) && r.reqs[q].phase != Released
                     then r.reqs[q].(settled := Some(ByClose)) else r.reqs[q])
  }

  lemma DisconnectAllAt(r: Rpc, c: ConnId, q: ReqKey)
    requires c in r.links && q in r.reqs && (PooledAt(r, r.pool.Keys, c) <==> IsPooled(r, c))
    requires PendingAt(r, r.pool.Keys, q) <==> IsPooled(r, r.reqs[q].conn) && r.reqs[q].phase != Released
    ensures DisconnectedAt(r, DisconnectAll(r), c, q) && DisconnectAll(r).pool == map[]
    ensures DisconnectAll(r).disconnected == r.disconnected
  {
  }

  lemma DisconnectAllIs(r: Rpc, c: ConnId, q: ReqKey)
    requires Core(r) && c in r.links && q in r.reqs
    ensures DisconnectedAt(r, DisconnectAll(r), c, q) && DisconnectAll(r).pool == map[]
    ensures DisconnectAll(r).disconnected == r.disconnected
  {
    PooledAtItsAddress(r, c);
    PendingAtPooled(r, q);
    DisconnectAllAt(r, c, q);
  }

  lemma DisconnectIgnoresState(r: Rpc)
    ensures DisconnectAll(r.(disconnected := true)) == DisconnectAll(r).(disconnected := true)
  {
    var d := r.(disconnected := true);
    assert forall c :: PooledAt(d, d.pool.Keys, c) <==> PooledAt(r, r.pool.Keys, c);
    assert forall q :: PendingAt(d, d.pool.Keys, q) <==> PendingAt(r, r.pool.Keys, q);
    assert DisconnectAll(d).links == DisconnectAll(r).links;
    assert DisconnectAll(d).reqs == DisconnectAll(r).reqs;
  }

  lemma SetsState(r: Rpc)
    ensures React(r, DisconnectedStateSet(true)) == DisconnectAll(r).(disconnected := true)
    ensures React(r, DisconnectedStateSet(false)) == r.(disconnected := false)
  {
    DisconnectIgnoresState(r);
  }

  lemma FlagDoesNotMatter(r: Rpc, s: Rpc, c: ConnId, q: ReqKey)
    requires c in r.links && q in r.reqs && DisconnectedAt(r, s, c, q)
    ensures DisconnectedAt(r, s.(disconnected := true), c, q)
  {
  }

  /** Disconnecting empties the pool; exactly the pooled connections are closed, for good and without a timer, and
      exactly the unsettled requests that wait on them are rejected. Reconnecting only resets the state. */
  lemma Disconnects(r: Rpc, on: bool, c: ConnId, q: ReqKey)
    requires Inv(r) && c in r.links && q in r.reqs
    ensures
      var s := React(r, DisconnectedStateSet(on));
      if on then s.disconnected && s.pool == map[] && DisconnectedAt(r, s, c, q) else s == r.(disconnected := false)
  {
    SetsState(r);
    if on {
      DisconnectAllIs(r, c, q);
      FlagDoesNotMatter(r, DisconnectAll(r), c, q);
    }
  }

  /** A transport that connects connects its connection unless that is closed, and changes nothing else. */
  lemma TransportConnects(r: Rpc, c: ConnId)
    requires Inv(r) && Enabled(r, IsConnected(c))
    ensures
      var s, l := React(r, IsConnected(c)), r.links[c];
      && c in s.links && s == r.(links := r.links[c := l.(conn := s.links[c].conn)])
      && s.links[c].conn.state == (if Closed(l) then Conns.Closed else Conns.Connected)
      && s.links[c].conn.nextSeq == l.conn.nextSeq
  {
    assert LinkOk(r, c);
  }

  /** When its wait is over, a connection that is still the pooled one of its address is connected. */
  lemma PooledIsTried(r: Rpc, c: ConnId)
    requires Inv(r) && Enabled(r, ReconnectIsDue(c))
    requires r.links[c].href in r.pool && r.pool[r.links[c].href] == c
    ensures
      var s, l := React(r, ReconnectIsDue(c)), r.links[c];
      && c in s.links && s.links[c].timer == None && s.links[c].trying == l.trying + 1
      && s.links[c].conn.state == (if l.conn.state == Conns.Connected then Conns.Connected else Conns.Connecting)
      && s == r.(links := r.links[c := l.(timer := None, trying := l.trying + 1, conn := s.links[c].conn)])
  {
    assert PoolOk(r, r.links[c].href);
    IsTried(r, c);
  }

  lemma IsTried(r: Rpc, c: ConnId)
    requires c in r.links && !Closed(r.links[c])
    requires r.links[c].href in r.pool && r.pool[r.links[c].href] == c
    ensures TimerFires(r, c) == r.(links := r.links[c := Tried(r.links[c].(timer := None))])
  {
    var s := WithLink(r, c, r.links[c].(timer := None));
    assert GetConnection(s, r.links[c].href) == (s, c);
  }

  /** One that is not only loses its timer; a connection for its address is found or made instead. */
  lemma ReplacedIsLeft(r: Rpc, c: ConnId)
    requires Inv(r) && Enabled(r, ReconnectIsDue(c))
    requires !(r.links[c].href in r.pool && r.pool[r.links[c].href] == c)
    ensures
      var s := React(r, ReconnectIsDue(c));
      && s == GetConnection(r.(links := r.links[c := r.links[c].(timer := None)]), r.links[c].href).0
      && c in s.links && s.links[c] == r.links[c].(timer := None)
      && (forall d :: d in r.links && d != c ==> d in s.links && s.links[d] == r.links[d])
  {
    var s := WithLink(r, c, r.links[c].(timer := None));
    ClearedKeeps(r, c);
    PooledOrNew(s, r.links[c].href);
    GetKeeps(s, r.links[c].href);
    assert s.links[c] == r.links[c].(timer := None) && forall d :: d in r.links && d != c ==> s.links[d] == r.links[d];
  }
}
