/** What every step of the client keeps, and what holds along its runs. */
module RpcClientRuns {
  import opened Wrappers
  import Backoff
  import Conns = RpcBaseConn
  import opened RpcClient

  ghost predicate LinkOk(r: Rpc, c: ConnId)
    requires c in r.links
  {
    var l := r.links[c];
    && c < r.nextConn && Conns.Valid(l.conn)
    && (l.pinging <==> l.accepted && !Transient(l.href) && !Closed(l))
    && (!l.accepted ==> Closed(l) && l.sent == map[])
    && l.backoff == Backoff.Carried(l.failures)
    && (l.accepted && Closed(l) ==> l.timer == None)
    && TimerOk(l)
  }

  /** An armed timer is set to one of the waits, and to the one that its count says unless that was reset
      while it was armed. */
  ghost predicate TimerOk(l: Link) {
    l.timer.Some? ==>
      && (exists n: nat :: l.timer.value == Backoff.Wait(n))
      && (l.failures > 0 ==> l.timer.value == Backoff.Wait(l.failures - 1))
  }

  /** The requests in a connection's map are those still to be released, under their own ids. */
  ghost predicate SentOk(r: Rpc, c: ConnId)
    requires c in r.links
  {
    forall id :: id in r.links[c].sent ==>
      var q := r.links[c].sent[id];
      q in r.reqs && r.reqs[q].conn == c && r.reqs[q].reqid == id && r.reqs[q].phase != Released
  }

  ghost predicate ReqOk(r: Rpc, q: ReqKey)
    requires q in r.reqs
  {
    var p := r.reqs[q];
    && p.conn in r.links
    && p.seqno < r.links[p.conn].conn.nextSeq
    && p.reqid == Conns.Reqid(p.seqno, r.links[p.conn].connid)
    && (p.phase != Released ==>
          r.links[p.conn].accepted && p.reqid in r.links[p.conn].sent && r.links[p.conn].sent[p.reqid] == q)
    && ((p.phase == Sending || p.phase == Waiting) && Closed(r.links[p.conn]) ==> p.settled.Some?)
  }

  /** A pooled connection is open, not transient, and stored under its own address. */
  ghost predicate PoolOk(r: Rpc, h: string)
    requires h in r.pool
  {
    && r.pool[h] in r.links
    && r.links[r.pool[h]].accepted && !Closed(r.links[r.pool[h]])
    && r.links[r.pool[h]].href == h && !Transient(h)
  }

  ghost predicate Core(r: Rpc) {
    && (forall c :: c in r.links ==> LinkOk(r, c) && SentOk(r, c))
    && (forall q :: q in r.reqs ==> ReqOk(r, q))
    && (forall h :: h in r.pool ==> PoolOk(r, h))
  }

  /** What holds between any two steps. */
  ghost predicate Inv(r: Rpc) {
    Core(r) && (r.disconnected ==> r.pool == map[])
  }

  ghost predicate LinkMoves(r: Rpc, s: Rpc, c: ConnId)
    requires c in r.links
  {
    && c in s.links
    && s.links[c].href == r.links[c].href && s.links[c].connid == r.links[c].connid
    && s.links[c].accepted == r.links[c].accepted
    && r.links[c].conn.nextSeq <= s.links[c].conn.nextSeq
    && (Closed(r.links[c]) ==> Closed(s.links[c]))
  }

  /** A request keeps its connection and id, is settled for good, once released does not change,
      and is rejected only when its own connection closes. */
  ghost predicate ReqMoves(r: Rpc, s: Rpc, q: ReqKey)
    requires q in r.reqs
  {
    var p := r.reqs[q];
    && q in s.reqs && p.conn in r.links
    && s.reqs[q].conn == p.conn && s.reqs[q].reqid == p.reqid
    && (p.settled.Some? ==> s.reqs[q].settled == p.settled)
    && (p.phase == Released ==> s.reqs[q] == p)
    && (p.settled.None? && s.reqs[q].settled == Some(ByClose) ==>
          p.conn in s.links && !Closed(r.links[p.conn]) && Closed(s.links[p.conn]))
  }

  ghost predicate Moves(r: Rpc, s: Rpc) {
    && (forall c :: c in r.links ==> LinkMoves(r, s, c))
    && (forall q :: q in r.reqs ==> ReqMoves(r, s, q))
  }

  lemma MovesTransitive(r: Rpc, s: Rpc, t: Rpc)
    requires Moves(r, s) && Moves(s, t)
    ensures Moves(r, t)
  {
    forall c | c in r.links ensures LinkMoves(r, t, c) {
      assert LinkMoves(r, s, c) && LinkMoves(s, t, c);
    }
    forall q | q in r.reqs ensures ReqMoves(r, t, q) {
      assert ReqMoves(r, s, q) && ReqMoves(s, t, q);
      assert LinkMoves(r, s, r.reqs[q].conn) && LinkMoves(s, t, r.reqs[q].conn);
    }
  }

  /** Changing what a connection carries, but not whether it is open or what it waits for. */
  ghost predicate Changes(k: Link, l: Link) {
    && l.href == k.href && l.connid == k.connid && l.accepted == k.accepted && l.sent == k.sent
    && l.pinging == k.pinging && Closed(l) == Closed(k)
    && Conns.Valid(l.conn) && k.conn.nextSeq <= l.conn.nextSeq && l.backoff == Backoff.Carried(l.failures)
    && (l.accepted && Closed(l) ==> l.timer == None) && TimerOk(l)
  }

  lemma LinkChangeAt(r: Rpc, c: ConnId, l: Link, d: ConnId)
    requires c in r.links && Changes(r.links[c], l) && LinkOk(r, c)
    requires d in r.links && LinkOk(r, d) && SentOk(r, d)
    ensures LinkOk(WithLink(r, c, l), d) && SentOk(WithLink(r, c, l), d) && LinkMoves(r, WithLink(r, c, l), d)
  {
  }

  lemma LinkChangeReq(r: Rpc, c: ConnId, l: Link, q: ReqKey)
    requires c in r.links && Changes(r.links[c], l) && q in r.reqs && ReqOk(r, q)
    ensures ReqOk(WithLink(r, c, l), q) && ReqMoves(r, WithLink(r, c, l), q)
  {
  }

  lemma LinkChangeKeeps(r: Rpc, c: ConnId, l: Link)
    requires Core(r) && c in r.links && Changes(r.links[c], l)
    ensures Core(WithLink(r, c, l)) && Moves(r, WithLink(r, c, l))
  {
    var s := WithLink(r, c, l);
    forall d | d in s.links ensures LinkOk(s, d) && SentOk(s, d) && LinkMoves(r, s, d) {
      LinkChangeAt(r, c, l, d);
    }
    forall q | q in s.reqs ensures ReqOk(s, q) && ReqMoves(r, s, q) {
      LinkChangeReq(r, c, l, q);
    }
    forall h | h in s.pool ensures PoolOk(s, h) {
      assert PoolOk(r, h);
    }
  }

  // ------------------------------------------------------- connections

  /** A connection as it is when it is added: without timer or requests, and accepted only if it is open. */
  ghost predicate IsNew(l: Link) {
    && Conns.Valid(l.conn) && l.sent == map[] && l.backoff == Backoff.Carried(l.failures) && l.timer == None
    && (l.pinging <==> l.accepted && !Transient(l.href) && !Closed(l))
    && (l.accepted <==> !Closed(l))
  }

  lemma JoinOld(r: Rpc, l: Link, pooled: bool, d: ConnId)
    requires d in r.links && LinkOk(r, d) && SentOk(r, d) && r.nextConn !in r.links
    ensures
      var s := Joined(r, l, pooled);
      d in s.links && LinkOk(s, d) && SentOk(s, d) && LinkMoves(r, s, d)
  {
    assert Joined(r, l, pooled).links[d] == r.links[d];
  }

  lemma JoinReq(r: Rpc, l: Link, pooled: bool, q: ReqKey)
    requires q in r.reqs && ReqOk(r, q) && r.nextConn !in r.links
    ensures ReqOk(Joined(r, l, pooled), q) && ReqMoves(r, Joined(r, l, pooled), q)
  {
    assert Joined(r, l, pooled).links[r.reqs[q].conn] == r.links[r.reqs[q].conn];
  }

  lemma JoinPool(r: Rpc, l: Link, pooled: bool, h: string)
    requires forall g :: g in r.pool ==> PoolOk(r, g)
    requires pooled ==> l.accepted && !Closed(l) && !Transient(l.href)
    requires r.nextConn !in r.links && h in Joined(r, l, pooled).pool
    ensures PoolOk(Joined(r, l, pooled), h)
  {
    assert h in r.pool ==> PoolOk(r, h);
  }

  lemma JoinKeeps(r: Rpc, l: Link, pooled: bool)
    requires Core(r) && IsNew(l)
    requires pooled ==> l.accepted && !Transient(l.href)
    ensures Core(Joined(r, l, pooled)) && Moves(r, Joined(r, l, pooled)) && r.nextConn !in r.links
  {
    var s := Joined(r, l, pooled);
    assert r.nextConn in r.links ==> LinkOk(r, r.nextConn);
    forall d | d in s.links ensures LinkOk(s, d) && SentOk(s, d) && (d in r.links ==> LinkMoves(r, s, d)) {
      if d in r.links {
        JoinOld(r, l, pooled, d);
      }
    }
    forall q | q in s.reqs ensures ReqOk(s, q) && ReqMoves(r, s, q) {
      JoinReq(r, l, pooled, q);
    }
    forall h | h in s.pool ensures PoolOk(s, h) {
      JoinPool(r, l, pooled, h);
    }
  }

  lemma AddKeeps(r: Rpc, href: string, up: bool)
    requires Inv(r)
    ensures var s, l := AddConnection(r, href, up), AddConnection(r, href, up).links[r.nextConn];
            && Inv(s) && Moves(r, s) && r.nextConn !in r.links
            && s == Joined(r, l, !r.disconnected && !Transient(href))
            && l.timer == None && l.href == href && l.sent == map[]
            && (if r.disconnected then !l.accepted else l.accepted && !Closed(l))
  {
    JoinKeeps(r, Entered(NewLink(href, r.nextConn, up), r.disconnected), !r.disconnected && !Transient(href));
  }

  /** Unless the client is disconnected, getting a connection for an address gives an open one. */
  lemma GetKeeps(r: Rpc, href: string)
    requires Inv(r)
    ensures var (s, c) := GetConnection(r, href);
            && Inv(s) && Moves(r, s) && s.reqs == r.reqs && s.disconnected == r.disconnected
            && s.links[c].href == href
            && (forall d :: d in r.links ==> d in s.links && s.links[d] == r.links[d])
            && (c in r.links ==> s == r)
            && (c !in r.links ==> s.links[c].timer == None)
            && (r.disconnected ==> !s.links[c].accepted)
            && (!r.disconnected ==>
                  && s.links[c].accepted && !Closed(s.links[c])
                  && (Transient(href) || (href in s.pool && s.pool[href] == c)))
            && (forall h :: h in r.pool ==> h in s.pool && s.pool[h] == r.pool[h])
  {
    if href in r.pool {
      assert PoolOk(r, href);
      MovesReflexive(r);
    } else {
      assert r.pool - {href} == r.pool;
      assert r.(pool := r.pool - {href}) == r;
      AddKeeps(r, href, false);
    }
  }

  lemma MovesReflexive(r: Rpc)
    requires Core(r)
    ensures Moves(r, r)
  {
    forall q | q in r.reqs ensures ReqMoves(r, r, q) {
      assert ReqOk(r, q);
    }
    assert forall c :: c in r.links ==> LinkMoves(r, r, c);
  }

  // ----------------------------------------------------------- closing

  /** What a closing connection looks like; only this is used of it. */
  ghost predicate ShutLink(k: Link, l: Link) {
    && l.href == k.href && l.connid == k.connid && l.accepted == k.accepted && l.sent == k.sent
    && Conns.Valid(l.conn) && Closed(l) && l.conn.nextSeq == k.conn.nextSeq
    && !l.pinging && l.timer == None && l.backoff == k.backoff && l.failures == k.failures
  }

  lemma RejectedMoves(r: Rpc, c: ConnId, q: ReqKey)
    requires Core(r) && c in r.links && q in r.reqs
    ensures q in r.links[c].sent.Values ==> r.reqs[q].conn == c
    ensures r.reqs[q].conn == c && r.reqs[q].phase != Released ==> q in r.links[c].sent.Values
  {
    assert SentOk(r, c) && ReqOk(r, q);
    if q in r.links[c].sent.Values {
      var id :| id in r.links[c].sent && r.links[c].sent[id] == q;
    }
    if r.reqs[q].conn == c && r.reqs[q].phase != Released {
      assert r.links[c].sent[r.reqs[q].reqid] == q;
    }
  }

  lemma ShutReqs(r: Rpc, c: ConnId, q: ReqKey)
    requires Core(r) && c in r.links && !Closed(r.links[c]) && r.links[c].accepted && q in r.reqs
    ensures var s := Shut(r, c);
            q in s.reqs && ReqOk(s, q) && ReqMoves(r, s, q)
  {
    assert ReqOk(r, q);
    RejectedMoves(r, c, q);
  }

  lemma ShutReqsAlike(r: Rpc, c: ConnId, q: ReqKey)
    requires c in r.links && q in r.reqs
    ensures var s := Shut(r, c);
            && q in s.reqs && s.reqs[q].conn == r.reqs[q].conn && s.reqs[q].reqid == r.reqs[q].reqid
            && s.reqs[q].phase == r.reqs[q].phase
  {
  }

  lemma ShutSent(r: Rpc, c: ConnId, d: ConnId)
    requires c in r.links && d in r.links && SentOk(r, d)
    ensures d in Shut(r, c).links && SentOk(Shut(r, c), d)
  {
    var s, sent := Shut(r, c), r.links[d].sent;
    assert s.links[d].sent == sent;
    forall id | id in sent
      ensures sent[id] in s.reqs && s.reqs[sent[id]].conn == d && s.reqs[sent[id]].reqid == id
           && s.reqs[sent[id]].phase != Released
    {
      ShutReqsAlike(r, c, sent[id]);
    }
  }

  lemma ShutLinks(r: Rpc, c: ConnId, d: ConnId)
    requires c in r.links && !Closed(r.links[c]) && LinkOk(r, c) && d in r.links && LinkOk(r, d)
    ensures var s := Shut(r, c);
            d in s.links && LinkOk(s, d) && LinkMoves(r, s, d)
  {
  }

  lemma ShutPool(r: Rpc, c: ConnId, h: string)
    requires Core(r) && c in r.links && r.links[c].accepted && h in Shut(r, c).pool
    ensures PoolOk(Shut(r, c), h)
  {
    assert PoolOk(r, h);
  }

  lemma ShutPoolIs(r: Rpc, c: ConnId)
    requires Core(r) && c in r.links && !Closed(r.links[c])
    ensures r.links[c].accepted && ShutLink(r.links[c], Shut(r, c).links[c])
    ensures Shut(r, c).pool
         == if r.links[c].href in r.pool && r.pool[r.links[c].href] == c then r.pool - {r.links[c].href} else r.pool
  {
    assert LinkOk(r, c);
    assert r.links[c].href in r.pool ==> PoolOk(r, r.links[c].href);
  }

  lemma ShutKeeps(r: Rpc, c: ConnId)
    requires Core(r) && c in r.links && !Closed(r.links[c])
    ensures var s := Shut(r, c);
            && Core(s) && Moves(r, s) && Closed(s.links[c]) && s.disconnected == r.disconnected
            && s.links.Keys == r.links.Keys
            && s.pool == (if r.links[c].href in r.pool && r.pool[r.links[c].href] == c
                          then r.pool - {r.links[c].href} else r.pool)
  {
    var s := Shut(r, c);
    ShutPoolIs(r, c);
    forall q | q in s.reqs ensures ReqOk(s, q) && ReqMoves(r, s, q) {
      ShutReqs(r, c, q);
    }
    forall d | d in s.links ensures LinkOk(s, d) && SentOk(s, d) && LinkMoves(r, s, d) {
      ShutLinks(r, c, d);
      ShutSent(r, c, d);
    }
    forall h | h in s.pool ensures PoolOk(s, h) {
      ShutPool(r, c, h);
    }
  }

  /** Arming the timer: the wait after `failures` failed reconnects, and what the next one inherits. */
  lemma ArmKeeps(r: Rpc, c: ConnId, failures: nat)
    requires Core(r) && c in r.links && !(r.links[c].accepted && Closed(r.links[c]))
    ensures var delay := Backoff.Delay(Backoff.Carried(failures));
            var s := WithLink(r, c, r.links[c].(backoff := Backoff.Increased(delay), failures := failures + 1,
                                    timer := Some(delay)));
            Core(s) && Moves(r, s) && delay == Backoff.Wait(failures)
  {
    Backoff.DelayIsWait(failures);
    assert LinkOk(r, c);
    LinkChangeKeeps(r, c, r.links[c].(backoff := Backoff.Wait(failures + 1), failures := failures + 1,
                                      timer := Some(Backoff.Wait(failures))));
  }

  lemma ReconnectKeeps(r: Rpc, href: string, failures: nat)
    requires Inv(r)
    ensures var s := Reconnect(r, href, Backoff.Carried(failures), failures);
            && Inv(s) && Moves(r, s) && s.reqs == r.reqs && s.disconnected == r.disconnected
            && (forall h :: h in r.pool ==> h in s.pool && s.pool[h] == r.pool[h])
  {
    GetKeeps(r, href);
    var (s, c) := GetConnection(r, href);
    if s.links[c].timer.None? {
      ArmKeeps(s, c, failures);
      MovesTransitive(r, s, Reconnect(r, href, Backoff.Carried(failures), failures));
    }
  }

  /** A connection closes; with the client not disconnected, a reconnect may be started. */
  lemma CloseKeeps(r: Rpc, c: ConnId)
    requires Inv(r) && c in r.links
    ensures var s := CloseLink(r, c);
            && Inv(s) && Moves(r, s) && Closed(s.links[c]) && s.disconnected == r.disconnected
            && forall h :: h in r.pool && r.pool[h] != c ==> h in s.pool && s.pool[h] == r.pool[h]
  {
    assert LinkOk(r, c);
    if Closed(r.links[c]) {
      MovesReflexive(r);
    } else {
      ShutKeeps(r, c);
      var l, s := r.links[c], Shut(r, c);
      if l.accepted && !l.noReconnect && StartsWith(l.href, r.routerDefault) {
        ReconnectKeeps(s, l.href, l.failures);
        MovesTransitive(r, s, Reconnect(s, l.href, l.backoff, l.failures));
        assert LinkMoves(s, CloseLink(r, c), c);
      }
    }
  }

  lemma DisconnectReqs(r: Rpc, hrefs: set<string>, q: ReqKey)
    requires Core(r) && q in r.reqs
    ensures var s := Disconnect(r, hrefs);
            q in s.reqs && ReqOk(s, q) && ReqMoves(r, s, q)
  {
    var c := r.reqs[q].conn;
    assert ReqOk(r, q);
    if PendingAt(r, hrefs, q) {
      var h :| h in hrefs && h in r.pool && r.pool[h] in r.links && q in r.links[r.pool[h]].sent.Values;
      assert PoolOk(r, h) && LinkOk(r, r.pool[h]);
      RejectedMoves(r, r.pool[h], q);
    } else if PooledAt(r, hrefs, c) {
      var h :| h in hrefs && h in r.pool && r.pool[h] == c;
      RejectedMoves(r, c, q);
    }
  }

  lemma DisconnectSent(r: Rpc, hrefs: set<string>, c: ConnId)
    requires c in r.links && SentOk(r, c)
    ensures c in Disconnect(r, hrefs).links && SentOk(Disconnect(r, hrefs), c)
  {
    assert Disconnect(r, hrefs).links[c].sent == r.links[c].sent;
  }

  lemma DisconnectLinks(r: Rpc, hrefs: set<string>, c: ConnId)
    requires c in r.links && LinkOk(r, c)
    ensures var s := Disconnect(r, hrefs);
            c in s.links && LinkOk(s, c) && LinkMoves(r, s, c)
  {
  }

  lemma DisconnectPool(r: Rpc, hrefs: set<string>, h: string)
    requires Core(r) && h in r.pool && h !in hrefs
    ensures PoolOk(Disconnect(r, hrefs), h)
  {
    assert PoolOk(r, h);
    assert forall g :: g in r.pool ==> PoolOk(r, g);
  }

  lemma DisconnectKeeps(r: Rpc, hrefs: set<string>)
    requires Core(r)
    ensures Core(Disconnect(r, hrefs)) && Moves(r, Disconnect(r, hrefs))
  {
    var s := Disconnect(r, hrefs);
    forall q | q in s.reqs ensures ReqOk(s, q) && ReqMoves(r, s, q) {
      DisconnectReqs(r, hrefs, q);
    }
    forall d | d in s.links ensures LinkOk(s, d) && SentOk(s, d) && LinkMoves(r, s, d) {
      DisconnectLinks(r, hrefs, d);
      DisconnectSent(r, hrefs, d);
    }
    forall h | h in s.pool ensures PoolOk(s, h) {
      DisconnectPool(r, hrefs, h);
    }
  }

  // ---------------------------------------------------------- requests

  /** A fresh id of a connection is not the id of any of its requests. */
  lemma IdIsNew(r: Rpc, c: ConnId)
    requires Core(r) && c in r.links
    ensures Conns.Reqid(r.links[c].conn.nextSeq, r.links[c].connid) !in r.links[c].sent
  {
    var id := Conns.Reqid(r.links[c].conn.nextSeq, r.links[c].connid);
    assert SentOk(r, c);
    if id in r.links[c].sent {
      var q := r.links[c].sent[id];
      assert ReqOk(r, q);
      Conns.ReqidInjective(r.reqs[q].seqno, r.links[c].conn.nextSeq, r.links[c].connid);
    }
  }

  lemma AssignLinks(r: Rpc, q: ReqKey, c: ConnId, d: ConnId)
    requires c in r.links && r.links[c].accepted && d in r.links && LinkOk(r, c) && LinkOk(r, d)
    ensures var s := Assign(r, q, c);
            d in s.links && LinkOk(s, d) && LinkMoves(r, s, d)
  {
  }

  lemma AssignSent(r: Rpc, q: ReqKey, c: ConnId, d: ConnId)
    requires Core(r) && c in r.links && r.links[c].accepted && q !in r.reqs && d in r.links
    ensures d in Assign(r, q, c).links && SentOk(Assign(r, q, c), d)
  {
    IdIsNew(r, c);
    assert SentOk(r, d);
  }

  lemma AssignReqs(r: Rpc, q: ReqKey, c: ConnId, p: ReqKey)
    requires Core(r) && c in r.links && r.links[c].accepted && q !in r.reqs && (p in r.reqs || p == q)
    ensures var s := Assign(r, q, c);
            p in s.reqs && ReqOk(s, p) && (p in r.reqs ==> ReqMoves(r, s, p))
  {
    IdIsNew(r, c);
    assert LinkOk(r, c);
    assert p in r.reqs ==> ReqOk(r, p);
  }

  lemma AssignKeeps(r: Rpc, q: ReqKey, c: ConnId)
    requires Core(r) && c in r.links && r.links[c].accepted && q !in r.reqs
    ensures Core(Assign(r, q, c)) && Moves(r, Assign(r, q, c))
  {
    var s := Assign(r, q, c);
    forall d | d in s.links ensures LinkOk(s, d) && SentOk(s, d) && LinkMoves(r, s, d) {
      AssignLinks(r, q, c, d);
      AssignSent(r, q, c, d);
    }
    forall p | p in s.reqs ensures ReqOk(s, p) && (p in r.reqs ==> ReqMoves(r, s, p)) {
      AssignReqs(r, q, c, p);
    }
    forall h | h in s.pool ensures PoolOk(s, h) {
      assert PoolOk(r, h);
    }
  }

  lemma ConnectKeeps(r: Rpc, c: ConnId)
    requires Core(r) && c in r.links
    ensures var s := WithConn(r, c, Conns.ConnectCall(r.links[c].conn).0);
            Core(s) && Moves(r, s)
  {
    assert LinkOk(r, c);
    LinkChangeKeeps(r, c, r.links[c].(conn := Conns.ConnectCall(r.links[c].conn).0));
  }

  lemma StartOnKeeps(r: Rpc, q: ReqKey, c: ConnId)
    requires Inv(r) && c in r.links && r.links[c].accepted && q !in r.reqs
    ensures Inv(StartOn(r, q, c)) && Moves(r, StartOn(r, q, c))
  {
    AssignKeeps(r, q, c);
    var s := Assign(r, q, c);
    ConnectKeeps(s, c);
    MovesTransitive(r, s, StartOn(r, q, c));
  }

  lemma StartKeeps(r: Rpc, q: ReqKey, href: string)
    requires Inv(r) && q !in r.reqs
    ensures Inv(Start(r, q, href)) && Moves(r, Start(r, q, href))
  {
    if r.disconnected {
      MovesReflexive(r);
    } else {
      GetKeeps(r, href);
      var (s, c) := GetConnection(r, href);
      StartOnKeeps(s, q, c);
      MovesTransitive(r, s, StartOn(s, q, c));
    }
  }

  lemma ReleaseLinks(r: Rpc, q: ReqKey, d: ConnId)
    requires q in r.reqs && r.reqs[q].conn in r.links && d in r.links && LinkOk(r, d)
    ensures var s := Release(r, q);
            d in s.links && LinkOk(s, d) && LinkMoves(r, s, d)
  {
  }

  lemma ReleaseSent(r: Rpc, q: ReqKey, d: ConnId)
    requires q in r.reqs && ReqOk(r, q) && d in r.links && SentOk(r, d)
    ensures d in Release(r, q).links && SentOk(Release(r, q), d)
  {
    var sent := Release(r, q).links[d].sent;
    assert d != r.reqs[q].conn ==> sent == r.links[d].sent;
    forall id | id in sent ensures sent[id] != q {
      assert r.reqs[r.links[d].sent[id]].reqid == id;
    }
  }

  lemma ReleaseReqs(r: Rpc, q: ReqKey, p: ReqKey)
    requires q in r.reqs && r.reqs[q].phase != Released && ReqOk(r, q) && p in r.reqs && ReqOk(r, p)
    ensures var s := Release(r, q);
            p in s.reqs && ReqOk(s, p) && ReqMoves(r, s, p)
  {
  }

  /** A released request leaves the map of its connection and nothing else. */
  lemma ReleaseKeeps(r: Rpc, q: ReqKey)
    requires Inv(r) && q in r.reqs && r.reqs[q].phase != Released
    ensures r.reqs[q].conn in r.links && Inv(Release(r, q)) && Moves(r, Release(r, q))
  {
    assert ReqOk(r, q);
    var s := Release(r, q);
    forall d | d in s.links ensures LinkOk(s, d) && SentOk(s, d) && LinkMoves(r, s, d) {
      ReleaseLinks(r, q, d);
      ReleaseSent(r, q, d);
    }
    forall p | p in s.reqs ensures ReqOk(s, p) && ReqMoves(r, s, p) {
      ReleaseReqs(r, q, p);
    }
    forall h | h in s.pool ensures PoolOk(s, h) {
      assert PoolOk(r, h);
    }
  }

  /** A request that is not released changes its phase or gets settled. */
  lemma ReqChangeKeeps(r: Rpc, q: ReqKey, p: Req)
    requires Inv(r) && q in r.reqs && r.reqs[q].phase != Released && p.phase != Released
    requires p == r.reqs[q].(phase := p.phase, settled := p.settled)
    requires r.reqs[q].settled.Some? ==> p.settled == r.reqs[q].settled
    requires r.reqs[q].settled.None? ==> p.settled != Some(ByClose)
    requires p.phase == Connecting || r.reqs[q].phase == Sending || r.reqs[q].phase == Waiting || p.settled.Some?
             || (p.conn in r.links && !Closed(r.links[p.conn]))
    ensures var s := r.(reqs := r.reqs[q := p]);
            Inv(s) && Moves(r, s)
  {
    var s := r.(reqs := r.reqs[q := p]);
    forall d | d in s.links ensures LinkOk(s, d) && SentOk(s, d) && LinkMoves(r, s, d) {
      assert LinkOk(r, d) && SentOk(r, d);
    }
    forall u | u in s.reqs ensures ReqOk(s, u) && ReqMoves(r, s, u) {
      assert ReqOk(r, u);
    }
    forall h | h in s.pool ensures PoolOk(s, h) {
      assert PoolOk(r, h);
    }
  }

  /** An answer settles the request of its id, and touches no other. */
  lemma AnswerKeeps(r: Rpc, c: ConnId, reqid: string)
    requires Inv(r) && c in r.links && IsPending(r, c, reqid)
    ensures Inv(Answer(r, c, reqid)) && Moves(r, Answer(r, c, reqid))
    ensures forall q :: q in r.reqs && Answer(r, c, reqid).reqs[q] != r.reqs[q] ==>
              r.reqs[q].conn == c && r.reqs[q].reqid == reqid && r.reqs[q].phase != Released
  {
    assert SentOk(r, c);
    var q := r.links[c].sent[reqid];
    ReqChangeKeeps(r, q, r.reqs[q].(settled := Some(ByResponse)));
  }

  lemma ResponseKeeps(r: Rpc, c: ConnId, reqid: string, readable: bool)
    requires Inv(r) && c in r.links
    ensures Inv(OnResponse(r, c, reqid, readable)) && Moves(r, OnResponse(r, c, reqid, readable))
  {
    if !IsPending(r, c, reqid) {
      MovesReflexive(r);
    } else if readable {
      AnswerKeeps(r, c, reqid);
    } else {
      CloseKeeps(r, c);
    }
  }

  lemma AfterConnectKeeps(r: Rpc, q: ReqKey)
    requires Inv(r) && q in r.reqs && r.reqs[q].phase == Connecting && r.reqs[q].conn in r.links
    ensures Inv(AfterConnect(r, q)) && Moves(r, AfterConnect(r, q))
  {
    if r.links[r.reqs[q].conn].conn.state == Conns.Connected {
      ReqChangeKeeps(r, q, r.reqs[q].(phase := Sending));
    } else {
      ReleaseKeeps(r, q);
    }
  }

  lemma ClosePhase(r: Rpc, c: ConnId, q: ReqKey)
    requires c in r.links && q in r.reqs
    ensures var s := CloseLink(r, c);
            q in s.reqs && s.reqs[q].phase == r.reqs[q].phase
  {
    var l, s := r.links[c], Shut(r, c);
    assert q in s.reqs && s.reqs[q].phase == r.reqs[q].phase;
    assert Reconnect(s, l.href, l.backoff, l.failures).reqs == s.reqs;
  }

  lemma AfterSendKeeps(r: Rpc, q: ReqKey, ok: bool)
    requires Inv(r) && q in r.reqs && r.reqs[q].phase == Sending && r.reqs[q].conn in r.links
    ensures Inv(AfterSend(r, q, ok)) && Moves(r, AfterSend(r, q, ok))
  {
    if ok {
      ReqChangeKeeps(r, q, r.reqs[q].(phase := Waiting));
    } else {
      CloseKeeps(r, r.reqs[q].conn);
      ClosePhase(r, r.reqs[q].conn, q);
      assert ReqMoves(r, CloseLink(r, r.reqs[q].conn), q);
      var s := CloseLink(r, r.reqs[q].conn);
      ReqChangeKeeps(s, q, s.reqs[q].(phase := Waiting));
      MovesTransitive(r, s, AfterSend(r, q, ok));
    }
  }

  // --------------------------------------------------- pings, reconnects

  lemma ConnectedKeeps(r: Rpc, c: ConnId)
    requires Inv(r) && c in r.links
    ensures var s := WithConn(r, c, Conns.OnConnect(r.links[c].conn));
            Inv(s) && Moves(r, s)
  {
    assert LinkOk(r, c);
    LinkChangeKeeps(r, c, r.links[c].(conn := Conns.OnConnect(r.links[c].conn)));
  }

  lemma IdUsedKeeps(r: Rpc, c: ConnId)
    requires Inv(r) && c in r.links
    ensures var s := WithConn(r, c, Conns.AllocReqid(r.links[c].conn));
            Inv(s) && Moves(r, s)
  {
    assert LinkOk(r, c);
    LinkChangeKeeps(r, c, r.links[c].(conn := Conns.AllocReqid(r.links[c].conn)));
  }

  lemma ReconnectedKeeps(r: Rpc, c: ConnId)
    requires Inv(r) && c in r.links && r.links[c].trying > 0
    ensures Inv(Reconnected(r, c)) && Moves(r, Reconnected(r, c))
  {
    assert LinkOk(r, c);
    LinkChangeKeeps(r, c, Reconnected(r, c).links[c]);
  }

  lemma PingedKeeps(r: Rpc, c: ConnId)
    requires Inv(r) && c in r.links
    ensures Inv(Pinged(r, c)) && Moves(r, Pinged(r, c))
  {
    assert LinkOk(r, c);
    LinkChangeKeeps(r, c, Pinged(r, c).links[c]);
  }

  lemma PingKeeps(r: Rpc, c: ConnId)
    requires Inv(r) && c in r.links
    ensures Inv(PingTick(r, c)) && Moves(r, PingTick(r, c))
  {
    var s := Pinged(r, c);
    PingedKeeps(r, c);
    CloseKeeps(s, c);
    MovesTransitive(r, s, CloseLink(s, c));
  }

  lemma PongKeeps(r: Rpc, c: ConnId, reqid: string)
    requires Inv(r) && c in r.links
    ensures Inv(OnPong(r, c, reqid)) && Moves(r, OnPong(r, c, reqid))
  {
    assert LinkOk(r, c);
    var l := r.links[c];
    if l.pings.None? {
      CloseKeeps(r, c);
    } else {
      LinkChangeKeeps(r, c, l.(pings := Some(l.pings.value - {reqid})));
    }
  }

  lemma ClearedKeeps(r: Rpc, c: ConnId)
    requires Inv(r) && c in r.links
    ensures var s := WithLink(r, c, r.links[c].(timer := None));
            Inv(s) && Moves(r, s)
  {
    assert LinkOk(r, c);
    LinkChangeKeeps(r, c, r.links[c].(timer := None));
  }

  lemma TriedKeeps(r: Rpc, c: ConnId)
    requires Inv(r) && c in r.links
    ensures var s := WithLink(r, c, Tried(r.links[c]));
            Inv(s) && Moves(r, s)
  {
    assert LinkOk(r, c);
    LinkChangeKeeps(r, c, Tried(r.links[c]));
  }

  lemma TimerKeeps(r: Rpc, c: ConnId)
    requires Inv(r) && c in r.links
    ensures Inv(TimerFires(r, c)) && Moves(r, TimerFires(r, c))
  {
    var s := WithLink(r, c, r.links[c].(timer := None));
    ClearedKeeps(r, c);
    GetKeeps(s, r.links[c].href);
    var (t, d) := GetConnection(s, r.links[c].href);
    MovesTransitive(r, s, t);
    if d == c {
      TriedKeeps(t, c);
      MovesTransitive(r, t, TimerFires(r, c));
    }
  }

  predicate OfRequest(e: Event) {
    e.StartsByAddress? || e.StartsOn? || e.ConnectEnds? || e.SendEnds? || e.GetsReply? || e.GivesUp? || e.Response?
  }

  lemma StartStepKeeps(r: Rpc, e: Event)
    requires Inv(r) && Enabled(r, e) && (e.StartsByAddress? || e.StartsOn?)
    ensures Inv(React(r, e)) && Moves(r, React(r, e))
  {
    match e
    case StartsByAddress(q, href) => StartKeeps(r, q, href);
    case StartsOn(q, c) => StartOnKeeps(r, q, c);
  }

  lemma RequestStepKeeps(r: Rpc, e: Event)
    requires Inv(r) && Enabled(r, e) && OfRequest(e) && !e.StartsByAddress? && !e.StartsOn?
    ensures Inv(React(r, e)) && Moves(r, React(r, e))
  {
    match e
    case ConnectEnds(q) => AfterConnectKeeps(r, q);
    case SendEnds(q, ok) => AfterSendKeeps(r, q, ok);
    case GetsReply(q) => ReleaseKeeps(r, q);
    case GivesUp(q) => ReleaseKeeps(r, q);
    case Response(c, reqid, readable) => ResponseKeeps(r, c, reqid, readable);
  }

  lemma LinkStepKeeps(r: Rpc, e: Event)
    requires Inv(r) && Enabled(r, e) && !OfRequest(e)
    ensures Inv(React(r, e)) && Moves(r, React(r, e))
  {
    match e
    case Incoming(href, up) => AddKeeps(r, href, up);
    case IsConnected(c) => ConnectedKeeps(r, c);
    case Fails(c) => CloseKeeps(r, c);
    case IdUsed(c) => IdUsedKeeps(r, c);
    case PingIsDue(c) => PingKeeps(r, c);
    case Pong(c, reqid) => PongKeeps(r, c, reqid);
    case ReconnectIsDue(c) => TimerKeeps(r, c);
    case ReconnectWorked(c) => ReconnectedKeeps(r, c);
    case DisconnectedStateSet(on) => DisconnectedStateKeeps(r, on);
    case RouterSet(routerDefault) => FlagsKeep(r, r.disconnected, routerDefault);
  }

  /** Any step keeps the invariant and moves connections and requests only forward. */
  lemma StepKeeps(r: Rpc, e: Event)
    requires Inv(r) && Enabled(r, e)
    ensures Inv(React(r, e)) && Moves(r, React(r, e))
  {
    if e.StartsByAddress? || e.StartsOn? {
      StartStepKeeps(r, e);
    } else if OfRequest(e) {
      RequestStepKeeps(r, e);
    } else {
      LinkStepKeeps(r, e);
    }
  }

  lemma FlagsKeep(r: Rpc, disconnected: bool, routerDefault: string)
    requires Core(r)
    ensures var s := r.(disconnected := disconnected, routerDefault := routerDefault);
            Core(s) && Moves(r, s)
  {
    var s := r.(disconnected := disconnected, routerDefault := routerDefault);
    forall d | d in s.links ensures LinkOk(s, d) && SentOk(s, d) && LinkMoves(r, s, d) {
      assert LinkOk(r, d) && SentOk(r, d);
    }
    forall q | q in s.reqs ensures ReqOk(s, q) && ReqMoves(r, s, q) {
      assert ReqOk(r, q);
    }
    forall h | h in s.pool ensures PoolOk(s, h) {
      assert PoolOk(r, h);
    }
  }

  lemma DisconnectAllKeeps(r: Rpc)
    requires Core(r)
    ensures Inv(DisconnectAll(r)) && Moves(r, DisconnectAll(r))
  {
    DisconnectKeeps(r, r.pool.Keys);
    assert DisconnectAll(r).pool == map[];
  }

  lemma DisconnectedStateKeeps(r: Rpc, on: bool)
    requires Inv(r)
    ensures var s := React(r, DisconnectedStateSet(on));
            Inv(s) && Moves(r, s)
  {
    FlagsKeep(r, on, r.routerDefault);
    if on {
      var s := r.(disconnected := true);
      DisconnectAllKeeps(s);
      MovesTransitive(r, s, DisconnectAll(s));
    }
  }

  // ------------------------------------------------------------- runs

  ghost predicate Steps(r: Rpc, s: Rpc) {
    exists e :: Enabled(r, e) && s == React(r, e)
  }

  ghost predicate StepAt(run: seq<Rpc>, k: nat) {
    k + 1 < |run| ==> Steps(run[k], run[k + 1])
  }

  ghost predicate IsRun(run: seq<Rpc>) {
    run != [] && Initial(run[0]) && forall k :: 0 <= k < |run| ==> StepAt(run, k)
  }

  ghost predicate Stepped(run: seq<Rpc>, events: seq<Event>, n: nat) {
    n < |events| && n + 1 < |run| ==> Enabled(run[n], events[n]) && run[n + 1] == React(run[n], events[n])
  }

  /** A run together with its events. */
  ghost predicate IsTrace(run: seq<Rpc>, events: seq<Event>) {
    |run| == |events| + 1 && Initial(run[0]) && forall n :: 0 <= n < |events| ==> Stepped(run, events, n)
  }

  lemma TraceIsRun(run: seq<Rpc>, events: seq<Event>)
    requires IsTrace(run, events)
    ensures IsRun(run)
  {
    forall n | 0 <= n < |run| ensures StepAt(run, n) {
      if n < |events| {
        assert Stepped(run, events, n);
      }
    }
  }

  lemma StepsKeep(r: Rpc, s: Rpc)
    requires Inv(r) && Steps(r, s)
    ensures Inv(s) && Moves(r, s)
  {
    var e :| Enabled(r, e) && s == React(r, e);
    StepKeeps(r, e);
  }

  lemma InitialIsSound(r: Rpc)
    requires Initial(r)
    ensures Inv(r)
  {
  }

  lemma {:induction false} RunKeeps(run: seq<Rpc>, k: nat)
    requires IsRun(run) && k < |run|
    ensures Inv(run[k])
  {
    if k == 0 {
      InitialIsSound(run[0]);
    } else {
      RunKeeps(run, k - 1);
      assert StepAt(run, k - 1);
      StepsKeep(run[k - 1], run[k]);
    }
  }

  ghost predicate SoundAt(run: seq<Rpc>, k: nat) {
    k < |run| ==> Inv(run[k]) && (k + 1 < |run| ==> Moves(run[k], run[k + 1]))
  }

  lemma RunSoundAt(run: seq<Rpc>, k: nat)
    requires IsRun(run)
    ensures SoundAt(run, k)
  {
    if k < |run| {
      RunKeeps(run, k);
      assert StepAt(run, k);
      if k + 1 < |run| {
        StepsKeep(run[k], run[k + 1]);
      }
    }
  }

  lemma {:induction false} MovesAlong(run: seq<Rpc>, m: nat, n: nat)
    requires m <= n < |run| && forall k: nat :: SoundAt(run, k)
    ensures Moves(run[m], run[n])
    decreases n
  {
    if m == n {
      assert SoundAt(run, m);
      MovesReflexive(run[m]);
    } else {
      MovesAlong(run, m, n - 1);
      assert SoundAt(run, n - 1);
      MovesTransitive(run[m], run[n - 1], run[n]);
    }
  }

  lemma RunMoves(run: seq<Rpc>, m: nat, n: nat)
    requires IsRun(run) && m <= n < |run|
    ensures Moves(run[m], run[n])
  {
    forall k: nat ensures SoundAt(run, k) {
      RunSoundAt(run, k);
    }
    MovesAlong(run, m, n);
  }

  /** In every run a request is settled at most once and for good, a released one never changes again
      whatever arrives, and none is left sending or waiting, unsettled, on a closed connection. */
  lemma RequestsSettleOnce(run: seq<Rpc>, m: nat, n: nat, q: ReqKey)
    requires IsRun(run) && m <= n < |run| && q in run[m].reqs
    ensures q in run[n].reqs && run[n].reqs[q].conn == run[m].reqs[q].conn && run[n].reqs[q].conn in run[n].links
    ensures run[m].reqs[q].settled.Some? ==> run[n].reqs[q].settled == run[m].reqs[q].settled
    ensures run[m].reqs[q].phase == Released ==> run[n].reqs[q] == run[m].reqs[q]
    ensures
      var p := run[n].reqs[q];
      (p.phase == Sending || p.phase == Waiting) && Closed(run[n].links[p.conn]) ==> p.settled.Some?
  {
    RunMoves(run, m, n);
    RunKeeps(run, n);
    assert ReqMoves(run[m], run[n], q) && ReqOk(run[n], q);
  }

  lemma CloseAnswersNone(r: Rpc, c: ConnId, q: ReqKey)
    requires c in r.links && q in r.reqs && r.reqs[q].settled.None?
    ensures q in CloseLink(r, c).reqs && CloseLink(r, c).reqs[q].settled != Some(ByResponse)
  {
    var l, s := r.links[c], Shut(r, c);
    assert q in s.reqs && s.reqs[q].settled != Some(ByResponse);
    assert Reconnect(s, l.href, l.backoff, l.failures).reqs == s.reqs;
  }

  lemma NothingAnswers(r: Rpc, e: Event, q: ReqKey)
    requires Enabled(r, e) && !OfRequest(e) && q in r.reqs && r.reqs[q].settled.None?
    ensures q in React(r, e).reqs && React(r, e).reqs[q].settled != Some(ByResponse)
  {
    match e
    case Fails(c) => CloseAnswersNone(r, c, q);
    case Pong(c, _) => CloseAnswersNone(r, c, q);
    case PingIsDue(c) => CloseAnswersNone(Pinged(r, c), c, q);
    case ReconnectIsDue(c) =>
      assert GetConnection(WithLink(r, c, r.links[c].(timer := None)), r.links[c].href).0.reqs == r.reqs;
    case _ =>
  }

  /** Only responses answer: every other event leaves an unsettled request unanswered. */
  lemma OnlyResponsesAnswer(r: Rpc, e: Event, q: ReqKey)
    requires Enabled(r, e) && !e.Response? && q in r.reqs && r.reqs[q].settled.None?
    ensures q in React(r, e).reqs && React(r, e).reqs[q].settled != Some(ByResponse)
  {
    match e
    case SendEnds(p, ok) => CloseAnswersNone(r, r.reqs[p].conn, q);
    case StartsByAddress(_, href) => assert GetConnection(r, href).0.reqs == r.reqs;
    case _ =>
      if !OfRequest(e) {
        NothingAnswers(r, e, q);
      }
  }

  lemma PendingIsItsOwn(r: Rpc, c: ConnId, reqid: string, q: ReqKey)
    requires Inv(r) && c in r.links && q in r.reqs && r.reqs[q].settled.None?
    ensures IsPending(r, c, reqid) && r.links[c].sent[reqid] == q <==>
            c == r.reqs[q].conn && reqid == r.reqs[q].reqid && r.reqs[q].phase != Released
  {
    assert ReqOk(r, q) && SentOk(r, c);
  }

  /** A request is answered exactly when a readable response with its own id arrives on its own connection
      before it is released. */
  lemma ResponseAnswersItsOwn(r: Rpc, c: ConnId, reqid: string, readable: bool, q: ReqKey)
    requires Inv(r) && c in r.links && q in r.reqs && r.reqs[q].settled.None?
    ensures q in OnResponse(r, c, reqid, readable).reqs
    ensures OnResponse(r, c, reqid, readable).reqs[q].settled == Some(ByResponse) <==>
            readable && c == r.reqs[q].conn && reqid == r.reqs[q].reqid && r.reqs[q].phase != Released
  {
    PendingIsItsOwn(r, c, reqid, q);
    CloseAnswersNone(r, c, q);
  }

  /** A response that cannot be read rejects every request its connection waits for, when it is for a
      pending one of an open connection, and does nothing otherwise. */
  lemma UnreadableRejects(r: Rpc, c: ConnId, reqid: string, q: ReqKey)
    requires Inv(r) && c in r.links && q in r.reqs && r.reqs[q].settled.None?
    ensures q in OnResponse(r, c, reqid, false).reqs
    ensures OnResponse(r, c, reqid, false).reqs[q].settled == Some(ByClose) <==>
            IsPending(r, c, reqid) && !Closed(r.links[c]) && r.reqs[q].conn == c && r.reqs[q].phase != Released
  {
    if IsPending(r, c, reqid) {
      CloseRejects(r, c, q);
    }
  }

  /** Closing a connection rejects exactly the requests that it waits for. */
  lemma CloseRejects(r: Rpc, c: ConnId, q: ReqKey)
    requires Inv(r) && c in r.links && q in r.reqs && r.reqs[q].settled.None?
    ensures q in CloseLink(r, c).reqs
    ensures CloseLink(r, c).reqs[q].settled == Some(ByClose) <==>
            !Closed(r.links[c]) && r.reqs[q].conn == c && r.reqs[q].phase != Released
  {
    assert LinkOk(r, c);
    RejectedMoves(r, c, q);
    RejectedIsNotReleased(r, c, q);
    CloseReqs(r, c);
  }

  /** What a close does to the requests, whatever follows it. */
  lemma CloseReqs(r: Rpc, c: ConnId)
    requires c in r.links
    ensures CloseLink(r, c).reqs
         == if Closed(r.links[c]) || !r.links[c].accepted then r.reqs
            else RejectAll(r.reqs, r.links[c].sent.Values)
  {
    var l, s := r.links[c], Shut(r, c);
    assert Reconnect(s, l.href, l.backoff, l.failures).reqs == s.reqs;
  }

  lemma RejectedIsNotReleased(r: Rpc, c: ConnId, q: ReqKey)
    requires Core(r) && c in r.links && q in r.reqs
    ensures q in r.links[c].sent.Values ==> r.reqs[q].phase != Released
  {
    assert SentOk(r, c);
    if q in r.links[c].sent.Values {
      var id :| id in r.links[c].sent && r.links[c].sent[id] == q;
    }
  }

  lemma MovesRejects(r: Rpc, s: Rpc, q: ReqKey)
    requires Moves(r, s) && q in r.reqs && r.reqs[q].settled.None?
    ensures q in s.reqs
    ensures s.reqs[q].settled == Some(ByClose) ==>
              var c := r.reqs[q].conn;
              c in r.links && c in s.links && !Closed(r.links[c]) && Closed(s.links[c])
  {
    assert ReqMoves(r, s, q);
  }

  /** Otherwise it is rejected, and only when its own connection closes. */
  lemma SettledByItsOwn(r: Rpc, e: Event, s: Rpc, q: ReqKey)
    requires Inv(r) && Enabled(r, e) && s == React(r, e) && q in r.reqs && r.reqs[q].settled.None?
    ensures q in s.reqs
    ensures s.reqs[q].settled == Some(ByResponse) ==>
              e == Response(r.reqs[q].conn, r.reqs[q].reqid, true) && r.reqs[q].phase != Released
    ensures s.reqs[q].settled == Some(ByClose) ==>
              var c := r.reqs[q].conn;
              c in r.links && c in s.links && !Closed(r.links[c]) && Closed(s.links[c])
  {
    StepKeeps(r, e);
    MovesRejects(r, s, q);
    if e.Response? {
      ResponseAnswersItsOwn(r, e.c, e.reqid, e.readable, q);
    } else {
      OnlyResponsesAnswer(r, e, q);
    }
  }

  /** The connection pool of every reachable state: its entries are open, not transient, and under
      their own address; it is empty while disconnected. */
  lemma PoolIsSound(run: seq<Rpc>, k: nat, href: string)
    requires IsRun(run) && k < |run|
    ensures run[k].disconnected ==> run[k].pool == map[]
    ensures href in run[k].pool ==>
              var c := run[k].pool[href];
              c in run[k].links && !Closed(run[k].links[c]) && run[k].links[c].href == href && !Transient(href)
  {
    RunKeeps(run, k);
    assert href in run[k].pool ==> PoolOk(run[k], href);
  }

  /** Closing a connection that was replaced does not evict its replacement. */
  lemma ReplacementStays(r: Rpc, c: ConnId, href: string)
    requires Inv(r) && c in r.links && href in r.pool && r.pool[href] != c
    ensures href in CloseLink(r, c).pool && CloseLink(r, c).pool[href] == r.pool[href]
  {
    CloseKeeps(r, c);
  }
}
