/** What one packet, one timer or one pair of candidates does to an ICE peer, by the packet's contents and the
    peer's sessions (src/rpc/ice.js). */
module IceHandlers {
  import opened Wrappers
  import opened Stun
  import opened IceCredentials
  import opened IceSessions
  import opened IceRuns

  /** Username and password are the peer's for this one. */
  predicate Authentic(i: Ice, m: AttrsMap) {
    CheckCredentials(i.local, if i.peer.Some? then Some(i.peer.value.ufrag) else None, m.username, m.password)
  }

  /** The sender claims the role that the peer has itself. */
  predicate ClaimsRoleOf(i: Ice, m: AttrsMap) {
    if i.controlling then m.iceControlling.Some? && m.iceControlling.value != []
    else m.iceControlled.Some? && m.iceControlled.value != []
  }

  predicate Genuine(i: Ice, m: AttrsMap) { Authentic(i, m) && m.address.Some? && !ClaimsRoleOf(i, m) }

  predicate Nominates(m: AttrsMap) { m.useCandidate.Some? && m.useCandidate.value != [] }

  // ------------------------------------------------------------ requests

  /** The session that a request is for, if it has one already. */
  function SessionFor(i: Ice, key: string, info: Option<Tid>): Option<Tid> {
    if info.Some? then info
    else if key in i.byKey && IsOpen(i, i.byKey[key]) then Some(i.byKey[key])
    else None
  }

  /** A request is dropped exactly when its peer is closed or it is not genuine, and then nothing changes; a
      genuine one throws exactly when no peer is signalled or the session of its channel is closed, and then
      nothing changes either; any other one is answered, with the nomination that it carried. */
  lemma RequestIsChecked(i: Ice, m: AttrsMap, key: string, priority: int, admitted: bool, newTid: Tid,
                         info: Option<Tid>)
    requires Inv(i) && Enabled(i, Request(m, key, priority, admitted, newTid, info))
    ensures
      var o := React(i, Request(m, key, priority, admitted, newTid, info));
      && (o.reaction == BadPacket <==> i.closed || !Genuine(i, m))
      && (o.reaction == Threw <==>
            !i.closed && Genuine(i, m) && (i.peer.None? || (info.Some? && !IsOpen(i, info.value))))
      && (o.reaction == BadPacket || o.reaction == Threw || o.reaction == Replied(Nominates(m)))
      && (o.reaction == BadPacket || o.reaction == Threw ==> o.ice == i && o.info == info && o.nominated == None)
  {
  }

  /** The table with the session `t` ready, if it was not yet. */
  function ReadyTable(i: Ice, t: Tid): Ice
    requires t in i.byTid
  {
    if Rank(i.byTid[t].state) < Rank(Ready) then i.(byTid := i.byTid[t := i.byTid[t].(state := Ready)]) else i
  }

  /** What follows once the sessions of a packet are ready: the search, if one of them was not ready before, whose
      choice SelectionIsBest describes; and the nomination of `t`, if the packet carries one and no session is
      active, which closes all others. Nothing else changes. */
  ghost predicate Advanced(i: Ice, changed: bool, t: Tid, nominate: bool, j: Ice, sent: Option<Tid>) {
    && t in i.byTid && j.byTid.Keys == i.byTid.Keys && j.byKey == i.byKey && j.closed == i.closed
    && sent == (if changed then FindSessionToActivate(i, false).1 else None)
    && j.activating == (if sent.Some? then sent else i.activating)
    && if nominate && i.active.None? then
         && j.active == Some(t) && j.byTid[t].state == Active
         && (forall u :: u in i.byTid && u != t ==> j.byTid[u].state == Closed)
       else
         && j.active == i.active
         && (forall u :: u in i.byTid && sent != Some(u) ==> j.byTid[u] == i.byTid[u])
         && (sent.Some? ==> sent.value in i.byTid && j.byTid[sent.value].state == Activating)
  }

  lemma SearchOutcome(i: Ice, t: Tid)
    requires t in i.byTid
    ensures
      var (j, sent) := FindSessionToActivate(i, false);
      && Advanced(i, true, t, false, j, sent)
      && (sent.Some? ==> j.byTid[sent.value] == i.byTid[sent.value].(state := Activating, nominated := true))
  {
  }

  lemma AdvanceOutcome(i: Ice, changed: bool, t: Tid, nominate: bool)
    requires t in i.byTid && !i.closed
    ensures Advanced(i, changed, t, nominate, Advance(i, changed, t, nominate).0, Advance(i, changed, t, nominate).1)
  {
    SearchOutcome(i, t);
    var found := if changed then FindSessionToActivate(i, false).0 else i;
    assert t in found.byTid && found.active == i.active && !found.closed && found.byTid.Keys == i.byTid.Keys;
    if nominate && i.active.None? {
      assert Complete(found, t).byTid.Keys == found.byTid.Keys;
    }
  }

  lemma MarksReady(i: Ice, t: Tid)
    requires t in i.byTid
    ensures MarkReady(i, t) == (ReadyTable(i, t), Rank(i.byTid[t].state) < Rank(Ready))
  {
  }

  /** An answered request has its own session, or the open one of its addresses, or a new one of them if its
      candidates match, or else none. */
  lemma RequestSession(i: Ice, m: AttrsMap, key: string, priority: int, admitted: bool, newTid: Tid,
                       info: Option<Tid>)
    requires Inv(i) && Enabled(i, Request(m, key, priority, admitted, newTid, info))
    requires React(i, Request(m, key, priority, admitted, newTid, info)).reaction.Replied?
    ensures
      var o, known := React(i, Request(m, key, priority, admitted, newTid, info)), SessionFor(i, key, info);
      if known.Some? then
        && o.info == known && IsOpen(i, known.value)
        && Advanced(ReadyTable(i, known.value), Rank(i.byTid[known.value].state) < Rank(Ready), known.value,
                    Nominates(m), o.ice, o.nominated)
      else if admitted then
        && o.info == Some(newTid)
        && var j := i.(byTid := i.byTid[newTid := Session(key, priority, Init, false)],
                       byKey := i.byKey[key := newTid]);
           Advanced(ReadyTable(j, newTid), true, newTid, Nominates(m), o.ice, o.nominated)
      else o.info == None && o.ice == i && o.nominated == None
  {
    var known := SessionFor(i, key, info);
    if known.Some? {
      if info.None? {
        assert KeyOk(i, key);
      }
      MarksReady(i, known.value);
      AdvanceOutcome(ReadyTable(i, known.value), MarkReady(i, known.value).1, known.value, Nominates(m));
    } else if admitted {
      AddKeeps(i, key, priority, admitted, newTid);
      var j := AddSession(i, key, priority, admitted, newTid).0;
      MarksReady(j, newTid);
      AdvanceOutcome(ReadyTable(j, newTid), true, newTid, Nominates(m));
    }
  }

  // ----------------------------------------------------------- responses

  /** A response is dropped exactly when the peer or the session it names is not open, or it is not genuine. One
      for an open session whose credentials are wrong, or that has no address, closes that session, and with
      it all others and the peer if it is the active one; any other that is dropped changes nothing. */
  lemma ResponseIsChecked(i: Ice, tid: Tid, m: AttrsMap, info: Option<Tid>)
    requires Inv(i) && Enabled(i, Response(tid, m, info))
    ensures
      var o := React(i, Response(tid, m, info));
      && (o.reaction == BadPacket <==> i.closed || !IsOpen(i, tid) || !Genuine(i, m))
      && (o.reaction == Threw <==> !i.closed && IsOpen(i, tid) && Genuine(i, m) && info.Some? && !IsOpen(i, info.value))
      && (o.reaction == BadPacket || o.reaction == Threw || o.reaction == Handled)
      && (o.reaction == BadPacket || o.reaction == Threw ==> o.nominated == None)
      && if !i.closed && IsOpen(i, tid) && (!Authentic(i, m) || m.address.None?) then
           && tid in o.ice.byTid && o.ice.byTid[tid].state == Closed
           && o.ice.closed == (i.active == Some(tid))
           && (forall u :: u in i.byTid && u != tid ==>
                 u in o.ice.byTid && o.ice.byTid[u].state == if i.active == Some(tid) then Closed else i.byTid[u].state)
         else o.reaction == BadPacket || o.reaction == Threw ==> o.ice == i
  {
  }

  /** An accepted response makes the session it names and the one of its channel ready; the nomination that
      it carries makes the one it names active. */
  lemma ResponseSessions(i: Ice, tid: Tid, m: AttrsMap, info: Option<Tid>)
    requires Inv(i) && Enabled(i, Response(tid, m, info)) && React(i, Response(tid, m, info)).reaction == Handled
    ensures
      var o, s := React(i, Response(tid, m, info)), if info.Some? then info.value else tid;
      && o.info == Some(s) && IsOpen(i, s) && IsOpen(i, tid)
      && Advanced(ReadyTable(ReadyTable(i, s), tid),
                  Rank(i.byTid[s].state) < Rank(Ready) || Rank(i.byTid[tid].state) < Rank(Ready),
                  tid, Nominates(m), o.ice, o.nominated)
  {
    var s := if info.Some? then info.value else tid;
    MarksReady(i, s);
    MarksReady(ReadyTable(i, s), tid);
    AdvanceOutcome(ReadyTable(ReadyTable(i, s), tid), MarkBothReady(i, s, tid).1, tid, Nominates(m));
  }

  // --------------------------------------------------- candidates, timers

  /** Starting checks on a pair of candidates: an open session of the pair starts unless it has started, one that
      has none gets a new one if the candidates match, and nothing else changes. */
  lemma ChecksStart(i: Ice, key: string, priority: int, admitted: bool, newTid: Tid)
    requires Inv(i) && Enabled(i, Check(key, priority, admitted, newTid))
    ensures
      var j, known := React(i, Check(key, priority, admitted, newTid)).ice, SessionFor(i, key, None);
      if known.Some? then
        && j.byTid.Keys == i.byTid.Keys && j.byKey == i.byKey
        && (forall u :: u in i.byTid && u != known.value ==> j.byTid[u] == i.byTid[u])
        && j.byTid[known.value].state
           == (if i.byTid[known.value].state == Init then Checking else i.byTid[known.value].state)
      else if admitted then
        && j.byTid == i.byTid[newTid := Session(key, priority, Checking, false)] && j.byKey == i.byKey[key := newTid]
      else j == i
  {
  }

  /** The force timer nominates the best ready session, whatever ranks above it. */
  lemma TimerForces(i: Ice, t: Tid)
    requires Inv(i)
    ensures React(i, ForceTimer).nominated == Some(t)
       <==> !i.closed && i.controlling && i.activating.None? && Tops(i, t)
  {
    SelectionIsBest(i, true, t);
  }
}
