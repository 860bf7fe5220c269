/** The RPC object as it runs: fields that its methods reassign, each method refining a function of
    RpcClient. */
module RpcObjects {
  import opened Wrappers
  import opened Bytes
  import Backoff
  import Conns = RpcBaseConn
  import opened RpcClient
  import opened RpcClientRuns

  ghost predicate PoolSound(r: Rpc) {
    forall h :: h in r.pool ==> PoolOk(r, h)
  }

  ghost predicate NextIn(r: Rpc, hrefs: set<string>, h: string) {
    hrefs <= r.pool.Keys && h in r.pool && h !in hrefs && r.pool[h] in r.links
  }

  /** The next connection to disconnect is still as it was. */
  lemma NextIsUntouched(r: Rpc, hrefs: set<string>, h: string)
    requires PoolSound(r) && hrefs <= r.pool.Keys && h in r.pool && h !in hrefs
    ensures NextIn(r, hrefs, h) && !PooledAt(r, hrefs, r.pool[h])
    ensures r.links[r.pool[h]].accepted && !Closed(r.links[r.pool[h]])
    ensures r.links[r.pool[h]].href == h && !Transient(h)
  {
    assert PoolOk(r, h);
    forall g | g in hrefs ensures r.pool[g] != r.pool[h] {
      assert PoolOk(r, g);
    }
  }

  lemma OneMoreLink(r: Rpc, hrefs: set<string>, h: string, d: ConnId)
    requires NextIn(r, hrefs, h)
    ensures PooledAt(r, hrefs + {h}, d) <==> PooledAt(r, hrefs, d) || d == r.pool[h]
  {
    if d == r.pool[h] {
      assert h in hrefs + {h} && r.pool[h] == d;
    }
    if PooledAt(r, hrefs, d) {
      var g :| g in hrefs && g in r.pool && r.pool[g] == d;
      assert g in hrefs + {h};
    }
  }

  lemma OneMoreReq(r: Rpc, hrefs: set<string>, h: string, q: ReqKey)
    requires NextIn(r, hrefs, h)
    ensures PendingAt(r, hrefs + {h}, q) <==> PendingAt(r, hrefs, q) || q in r.links[r.pool[h]].sent.Values
  {
    if q in r.links[r.pool[h]].sent.Values {
      assert h in hrefs + {h};
    }
    if PendingAt(r, hrefs, q) {
      var g :| g in hrefs && g in r.pool && r.pool[g] in r.links && q in r.links[r.pool[g]].sent.Values;
      assert g in hrefs + {h};
    }
  }

  function WithoutReconnect(r: Rpc, c: ConnId): Rpc
    requires c in r.links
  {
    WithLink(r, c, r.links[c].(noReconnect := true))
  }

  /** Closing one more pooled connection, and disconnecting one more address. */
  ghost predicate OneMore(r: Rpc, hrefs: set<string>, h: string, u: Rpc, t: Rpc) {
    && NextIn(r, hrefs, h) && !PooledAt(r, hrefs, r.pool[h])
    && r.links[r.pool[h]].accepted && r.links[r.pool[h]].href == h && !Transient(h)
    && u == Shut(WithoutReconnect(Disconnect(r, hrefs), r.pool[h]), r.pool[h])
    && t == Disconnect(r, hrefs + {h})
  }

  lemma OneMoreLinks(r: Rpc, hrefs: set<string>, h: string, u: Rpc, t: Rpc)
    requires OneMore(r, hrefs, h, u, t)
    ensures u.links == t.links
  {
    forall d | d in r.links ensures u.links[d] == t.links[d] {
      OneMoreLink(r, hrefs, h, d);
    }
  }

  lemma OneMoreReqs(r: Rpc, hrefs: set<string>, h: string, u: Rpc, t: Rpc)
    requires OneMore(r, hrefs, h, u, t)
    ensures u.reqs == t.reqs
  {
    forall q | q in r.reqs ensures u.reqs[q] == t.reqs[q] {
      OneMoreReq(r, hrefs, h, q);
    }
  }

  lemma DisconnectOneMore(r: Rpc, hrefs: set<string>, h: string)
    requires PoolSound(r) && hrefs <= r.pool.Keys && h in r.pool && h !in hrefs
    ensures
      var s, c := Disconnect(r, hrefs), r.pool[h];
      && c in s.links && h in s.pool && s.pool[h] == c
      && CloseLink(WithoutReconnect(s, c), c) == Disconnect(r, hrefs + {h})
  {
    NextIsUntouched(r, hrefs, h);
    var c, t := r.pool[h], Disconnect(r, hrefs + {h});
    var u := Shut(WithoutReconnect(Disconnect(r, hrefs), c), c);
    OneMoreLinks(r, hrefs, h, u, t);
    OneMoreReqs(r, hrefs, h, u, t);
    assert u.pool == t.pool;
  }

  lemma NoneToDisconnect(r: Rpc)
    ensures Disconnect(r, r.pool.Keys - r.pool.Keys) == r
  {
    assert Disconnect(r, r.pool.Keys - r.pool.Keys).links == r.links;
    assert Disconnect(r, r.pool.Keys - r.pool.Keys).reqs == r.reqs;
    assert Disconnect(r, r.pool.Keys - r.pool.Keys).pool == r.pool;
  }

  class RPC {
    var links: map<ConnId, Link>
    var pool: map<string, ConnId>
    var reqs: map<ReqKey, Req>
    var disconnected: bool
    var nextConn: nat
    var routerDefault: string

    ghost function View(): Rpc
      reads this
    {
      Rpc(links, pool, reqs, disconnected, nextConn, routerDefault)
    }

    constructor (routerDefault: string)
      ensures View() == Rpc(map[], map[], map[], false, 0, routerDefault)
      ensures Inv(View())
    {
      links, pool, reqs, disconnected, nextConn := map[], map[], map[], false, 0;
      this.routerDefault := routerDefault;
    }

    /** A new connection of the client, or an incoming one. */
    method AcceptNewConnection(href: string, up: bool) returns (c: ConnId)
      modifies this
      ensures View() == AddConnection(old(View()), href, up) && c == old(nextConn)
    {
      c := nextConn;
      nextConn := nextConn + 1;
      var l := NewLink(href, c, up);
      if disconnected {
        links := links[c := l.(conn := Conns.CloseConn(l.conn))];
        return;
      }
      l := l.(accepted := true);
      if !Transient(href) {
        pool := pool[href := c];
        l := l.(pinging := true);
      }
      links := links[c := l];
    }

    method FindConnection(href: string) returns (c: ConnId)
      modifies this
      ensures (View(), c) == GetConnection(old(View()), href)
    {
      if href in pool && pool[href] in links {
        if !Closed(links[pool[href]]) {
          return pool[href];
        }
      }
      pool := pool - {href};
      c := AcceptNewConnection(href, false);
    }

    method StartReconnect(href: string, backoff: real, failures: nat)
      modifies this
      ensures View() == Reconnect(old(View()), href, backoff, failures)
    {
      var delay := if backoff == 0.0 then Backoff.BASE else backoff;
      var c := FindConnection(href);
      if links[c].timer.Some? {
        return;
      }
      links := links[c := links[c].(
        backoff := Backoff.Min(delay * Backoff.FACTOR, Backoff.MAX), failures := failures + 1, timer := Some(delay))];
    }

    /** Reject every request that this connection has sent. */
    method RejectPending(pending: set<ReqKey>)
      modifies this`reqs
      ensures reqs == RejectAll(old(reqs), pending)
    {
      var todo := pending;
      while todo != {}
        invariant todo <= pending && reqs == RejectAll(old(reqs), pending - todo)
        decreases todo
      {
        var q :| q in todo;
        if q in reqs && reqs[q].settled.None? {
          reqs := reqs[q := reqs[q].(settled := Some(ByClose))];
        }
        todo := todo - {q};
      }
      assert pending - todo == pending;
    }

    /** Close a connection and run the 'close' listener of the RPC object. */
    method CloseConnection(c: ConnId)
      requires c in links
      modifies this
      ensures View() == CloseLink(old(View()), c)
    {
      var l := links[c];
      if Closed(l) {
        return;
      }
      links := links[c := l.(conn := Conns.CloseConn(l.conn))];
      if !l.accepted {
        return;
      }
      if !Transient(l.href) && l.href in pool && pool[l.href] == c {
        pool := pool - {l.href};
      }
      RejectPending(l.sent.Values);
      links := links[c := links[c].(pinging := false, timer := None)];
      assert View() == Shut(old(View()), c);
      if !l.noReconnect && StartsWith(l.href, routerDefault) {
        StartReconnect(l.href, l.backoff, l.failures);
      }
    }

    method DisconnectOne(h: string, ghost was: Rpc, ghost done: set<string>)
      requires PoolSound(was) && done <= was.pool.Keys && h in was.pool && h !in done
      requires View() == Disconnect(was, done)
      modifies this
      ensures View() == Disconnect(was, done + {h})
    {
      DisconnectOneMore(was, done, h);
      var c := pool[h];
      links := links[c := links[c].(noReconnect := true)];
      CloseConnection(c);
    }

    method DisconnectPool()
      requires PoolSound(View())
      modifies this
      ensures View() == DisconnectAll(old(View()))
    {
      ghost var was := View();
      var todo := pool.Keys;
      NoneToDisconnect(was);
      while todo != {}
        invariant todo <= was.pool.Keys && View() == Disconnect(was, was.pool.Keys - todo)
        decreases todo
      {
        var h :| h in todo;
        ghost var done := was.pool.Keys - todo;
        DisconnectOne(h, was, done);
        todo := todo - {h};
        assert was.pool.Keys - todo == done + {h};
      }
      assert was.pool.Keys - todo == was.pool.Keys;
    }

    method SetDisconnectedState(on: bool)
      requires Inv(View())
      modifies this
      ensures View() == React(old(View()), DisconnectedStateSet(on))
    {
      FlagsKeep(View(), on, routerDefault);
      disconnected := on;
      if on {
        DisconnectPool();
      }
    }

    /** Put a request on a connection and start connecting it. */
    method AssignConnection(q: ReqKey, c: ConnId)
      requires c in links
      modifies this
      ensures View() == StartOn(old(View()), q, c)
    {
      var l := links[c];
      var reqid := ToDecimal(l.conn.nextSeq) + "@" + l.connid;
      reqs := reqs[q := Req(c, l.conn.nextSeq, reqid, Connecting, None)];
      l := l.(conn := Conns.AllocReqid(l.conn), sent := l.sent[reqid := q]);
      links := links[c := l.(conn := Conns.ConnectCall(l.conn).0)];
    }

    method HandleResponse(c: ConnId, reqid: string, readable: bool)
      requires c in links
      modifies this
      ensures View() == OnResponse(old(View()), c, reqid, readable)
    {
      if reqid !in links[c].sent {
        return;
      }
      var q := links[c].sent[reqid];
      if q in reqs {
        if reqs[q].settled.None? {
          if readable {
            reqs := reqs[q := reqs[q].(settled := Some(ByResponse))];
          } else {
            CloseConnection(c);
          }
        }
      }
    }

    method ReleaseConnection(q: ReqKey)
      requires q in reqs && reqs[q].conn in links
      modifies this
      ensures View() == Release(old(View()), q)
    {
      var c := reqs[q].conn;
      links := links[c := links[c].(sent := links[c].sent - {reqs[q].reqid})];
      reqs := reqs[q := reqs[q].(phase := Released)];
    }

    method SendPing(c: ConnId)
      requires c in links
      modifies this
      ensures View() == PingTick(old(View()), c)
    {
      var l := links[c];
      var pings := if l.pings.Some? then l.pings.value else {};
      pings := pings + {ToDecimal(l.conn.nextSeq) + "@" + l.connid};
      links := links[c := l.(conn := Conns.AllocReqid(l.conn), pings := Some(pings))];
      if |pings| > PING_EXHAUSTED_COUNT {
        CloseConnection(c);
      }
    }

    method HandlePong(c: ConnId, reqid: string)
      requires c in links
      modifies this
      ensures View() == OnPong(old(View()), c, reqid)
    {
      var l := links[c];
      if l.pings.None? {
        CloseConnection(c);
      } else {
        links := links[c := l.(pings := Some(l.pings.value - {reqid}))];
      }
    }

    method OnReconnectTimer(c: ConnId)
      requires c in links
      modifies this
      ensures View() == TimerFires(old(View()), c)
    {
      links := links[c := links[c].(timer := None)];
      var d := FindConnection(links[c].href);
      if d == c {
        var l := links[c];
        links := links[c := l.(conn := Conns.ConnectCall(l.conn).0, trying := l.trying + 1)];
      }
    }

    /** The first step of a request: find a connection, join it, start connecting. */
    method StartRequest(q: ReqKey, href: string)
      modifies this
      ensures View() == Start(old(View()), q, href)
    {
      if !disconnected {
        var c := FindConnection(href);
        AssignConnection(q, c);
      }
    }
  }
}
