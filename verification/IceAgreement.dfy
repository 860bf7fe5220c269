/** Two honest ICE peers over a network that loses, duplicates, reorders and misdelivers packets:
    the nomination handshake of src/rpc/ice.js (sections 7.1.2.1 and 8.1.1 of RFC 5245). */
module IceAgreement {
  import opened Wrappers
  import opened Stun
  import opened IceCredentials
  import opened IceSessions
  import opened IceRuns

  /** `fromKey` is the key of the session the sender sent it on; a reply also records, for the
      statement only, the session of the replying peer it was answered on. */
  datatype Packet = Packet(
    fromA: bool, request: bool, tid: Tid, attrs: AttrsMap, fromKey: string, answeredOn: Option<Tid>)

  /** Peer a connects and so controls. `route` gives, for the key of a session of a, the key that
      its packets get at b: addresses are stable. `sent` keeps every packet ever sent. */
  datatype Sys = Sys(a: Ice, b: Ice, route: string -> string, sent: set<Packet>)

  predicate Honest(s: Sys) {
    && s.a.controlling && !s.b.controlling
    && COLON !in s.a.local.ufrag && COLON !in s.b.local.ufrag && s.a.local.ufrag != s.b.local.ufrag
    && (s.a.peer.Some? ==> s.a.peer == Some(s.b.local))
    && (s.b.peer.Some? ==> s.b.peer == Some(s.a.local))
  }

  ghost predicate InitialSys(s: Sys) {
    Honest(s) && Initial(s.a) && Initial(s.b) && s.sent == {}
  }

  function SideOf(s: Sys, fromA: bool): Ice { if fromA then s.a else s.b }

  function Attrs(s: Sys, fromA: bool, use: bool, seen: Endpoint): AttrsMap {
    if fromA then SentMap(true, use, s.a.local, s.b.local, seen) else SentMap(false, use, s.b.local, s.a.local, seen)
  }

  /** The packet a session sends now: its first check, or its nomination. */
  function SessionPacket(s: Sys, fromA: bool, t: Tid, seen: Endpoint): Packet
    requires t in SideOf(s, fromA).byTid
  {
    var session := SideOf(s, fromA).byTid[t];
    Packet(fromA, true, t, Attrs(s, fromA, session.nominated, seen), session.key, None)
  }

  function ReplyPacket(s: Sys, fromA: bool, request: Packet, on: Option<Tid>, use: bool, seen: Endpoint): Packet {
    Packet(fromA, false, request.tid, Attrs(s, fromA, use, seen), request.fromKey, on)
  }

  datatype Action =
    /** Anything one peer does by itself: signalling, candidates, timers, closes. */
    | Local(onA: bool, e: Event)
    /** A session sends its packet, the first time or again. */
    | Send(fromA: bool, t: Tid, seen: Endpoint)
    /** A packet arrives; it stays in the network. */
    | Deliver(toA: bool, p: Packet, key: string, priority: int, admitted: bool, newTid: Tid,
              info: Option<Tid>, seen: Endpoint)

  function EventOf(act: Action): Event
    requires act.Deliver?
  {
    if act.p.request then Request(act.p.attrs, act.key, act.priority, act.admitted, act.newTid, act.info)
    else Response(act.p.tid, act.p.attrs, act.info)
  }

  /** A nomination of a reaches b under the routed key, and b does not turn away the candidates of one
      that has no open session yet. Nothing is asked of other packets. */
  predicate StableRoute(s: Sys, act: Action)
    requires act.Deliver?
  {
    !act.toA && act.p.fromA && act.p.request && Truthy(act.p.attrs.useCandidate) ==>
      if act.info.Some? then act.info.value in s.b.byTid && s.b.byTid[act.info.value].key == s.route(act.p.fromKey)
      else
        && act.key == s.route(act.p.fromKey)
        && (act.admitted || (act.key in s.b.byKey && IsOpen(s.b, s.b.byKey[act.key])))
  }

  /** What can happen at all. */
  ghost predicate Possible(s: Sys, act: Action) {
    match act
    case Local(onA, e) =>
      && !e.Request? && !e.Response? && Enabled(SideOf(s, onA), e)
      && (e.Signalled? ==> e.peer == SideOf(s, !onA).local)
    case Send(fromA, t, _) => t in SideOf(s, fromA).byTid
    case Deliver(toA, p, _, _, _, _, _, _) => p in s.sent && Enabled(SideOf(s, toA), EventOf(act))
  }

  /** What can happen while addresses are stable. */
  ghost predicate May(s: Sys, act: Action) {
    Possible(s, act) && (act.Deliver? ==> StableRoute(s, act))
  }

  function WithSide(s: Sys, onA: bool, i: Ice): Sys { if onA then s.(a := i) else s.(b := i) }

  /** The nomination that a handler may have sent is sent by a later Send action. */
  ghost function Do(s: Sys, act: Action): Sys
    requires Possible(s, act)
  {
    match act
    case Local(onA, e) => WithSide(s, onA, React(SideOf(s, onA), e).ice)
    case Send(fromA, t, seen) => s.(sent := s.sent + {SessionPacket(s, fromA, t, seen)})
    case Deliver(toA, p, _, _, _, _, _, seen) =>
      var o := React(SideOf(s, toA), EventOf(act));
      var next := WithSide(s, toA, o.ice);
      if o.reaction.Replied?
      then next.(sent := s.sent + {ReplyPacket(s, toA, p, o.info, o.reaction.useCandidate, seen)})
      else next
  }

  /** What every packet ever sent satisfies. */
  ghost predicate PacketOk(s: Sys, p: Packet) {
    && (exists use, seen :: p.attrs == Attrs(s, p.fromA, use, seen))
    && (Truthy(p.attrs.useCandidate) ==>
          && s.a.activating == Some(p.tid) && p.tid in s.a.byTid && s.a.byTid[p.tid].key == p.fromKey
          && (p.request ==> p.fromA)
          && (!p.request ==> !p.fromA && p.answeredOn.Some? && s.b.active == p.answeredOn))
  }

  /** The active session of b is the one the nominated session of a is routed to. */
  ghost predicate BFollowsA(s: Sys) {
    s.b.active.Some? ==>
      && s.a.activating.Some? && s.a.activating.value in s.a.byTid && s.b.active.value in s.b.byTid
      && s.b.byTid[s.b.active.value].key == s.route(s.a.byTid[s.a.activating.value].key)
  }

  ghost predicate SysInv(s: Sys) {
    && Honest(s) && Inv(s.a) && Inv(s.b) && s.b.activating.None?
    && (forall p :: p in s.sent ==> PacketOk(s, p))
    && BFollowsA(s)
    && (s.a.active.Some? ==> s.a.active == s.a.activating && s.b.active.Some?)
  }

  /** What may change between two states of the two peers. */
  ghost predicate SysGrows(s: Sys, n: Sys) {
    && n.route == s.route && Grows(s.a, n.a) && Grows(s.b, n.b)
  }

  lemma PacketsStay(s: Sys, n: Sys)
    requires SysInv(s) && SysGrows(s, n)
    ensures forall p :: p in s.sent ==> PacketOk(n, p)
  {
    forall p | p in s.sent ensures PacketOk(n, p) {
      assert PacketOk(s, p);
      var use, seen :| p.attrs == Attrs(s, p.fromA, use, seen);
      assert p.attrs == Attrs(n, p.fromA, use, seen);
      if Truthy(p.attrs.useCandidate) {
        assert SessionGrows(s.a, n.a, p.tid);
      }
    }
  }

  /** Only a's packets pass at b, and only b's at a. */
  lemma OnlyTheOtherIsAccepted(s: Sys, toA: bool, p: Packet)
    requires Honest(s) && (exists use, seen :: p.attrs == Attrs(s, p.fromA, use, seen))
    requires Judge(SideOf(s, toA), p.attrs) == Accepted && SideOf(s, toA).peer.Some?
    ensures p.fromA != toA
  {
    if p.fromA == toA {
      OwnPacketRejected(SideOf(s, toA).local, SideOf(s, !toA).local);
    }
  }

  lemma LocalLeavesActive(i: Ice, e: Event)
    requires Inv(i) && Enabled(i, e) && !e.Request? && !e.Response?
    ensures React(i, e).ice.active == i.active
    ensures React(i, e).ice.peer == if e.Signalled? then Some(e.peer) else i.peer
    ensures !i.controlling ==> React(i, e).ice.activating == i.activating
  {
    match e
    case Signalled(_) =>
    case Check(key, priority, admitted, newTid) => CheckKeeps(i, key, priority, admitted, newTid);
    case ForceTimer => FindKeeps(i, true);
    case SessionCloses(t) => CloseKeeps(i, t);
    case IceCloses => CloseIceKeeps(i);
  }

  /** Keys of old sessions stay, so the link between both active sessions stays. */
  lemma LinkStays(s: Sys, n: Sys)
    requires SysInv(s) && SysGrows(s, n) && n.b.active == s.b.active
    ensures BFollowsA(n)
  {
    if s.b.active.Some? {
      assert SessionGrows(s.a, n.a, s.a.activating.value) && SessionGrows(s.b, n.b, s.b.active.value);
    }
  }

  lemma LocalKeeps(s: Sys, onA: bool, e: Event)
    requires SysInv(s) && May(s, Local(onA, e))
    ensures SysInv(Do(s, Local(onA, e)))
  {
    var i, n := SideOf(s, onA), Do(s, Local(onA, e));
    StepKeeps(i, e);
    LocalLeavesActive(i, e);
    GrowsReflexive(s.a);
    GrowsReflexive(s.b);
    PacketsStay(s, n);
    LinkStays(s, n);
  }

  lemma SendKeeps(s: Sys, fromA: bool, t: Tid, seen: Endpoint)
    requires SysInv(s) && May(s, Send(fromA, t, seen))
    ensures SysInv(Do(s, Send(fromA, t, seen)))
  {
    var n, p := Do(s, Send(fromA, t, seen)), SessionPacket(s, fromA, t, seen);
    assert SessionOk(SideOf(s, fromA), t);
    GrowsReflexive(s.a);
    GrowsReflexive(s.b);
    PacketsStay(s, n);
    assert p.attrs == Attrs(n, fromA, SideOf(s, fromA).byTid[t].nominated, seen);
    assert PacketOk(n, p);
  }

  /** A nomination that b answers arrived on b's active session. */
  lemma AnsweredOnActive(s: Sys, act: Action)
    requires SysInv(s) && act.Deliver? && May(s, act) && !act.toA && act.p.request
    requires act.p.fromA && Truthy(act.p.attrs.useCandidate)
    requires React(s.b, EventOf(act)).reaction.Replied?
    ensures
      var o := React(s.b, EventOf(act));
      && o.info.Some? && o.ice.active == o.info && o.info.value in o.ice.byTid
      && o.ice.byTid[o.info.value].key == s.route(act.p.fromKey)
  {
    var p, b := act.p, s.b;
    RequestKeeps(b, Judge(b, p.attrs), true, act.key, act.priority, act.admitted, act.newTid, act.info);
    var o := React(b, EventOf(act));
    if act.info.Some? {
      assert SessionGrows(b, o.ice, act.info.value);
    } else if act.key in b.byKey {
      assert KeyOk(b, act.key) && SessionGrows(b, o.ice, b.byKey[act.key]);
    }
    if b.active.Some? {
      var t := b.active.value;
      assert PacketOk(s, p) && SessionOk(b, t) && SessionGrows(b, o.ice, t);
      assert b.byTid[t].key == s.route(p.fromKey) && IsOpen(b, t);
      InvGivesDistinctKeys(b);
      if act.info.Some? {
        assert act.info.value == t;
      }
    }
  }

  /** A request leaves both peers as they should be, whatever its reaction. */
  lemma RequestKeepsPeers(s: Sys, act: Action)
    requires SysInv(s) && act.Deliver? && May(s, act) && act.p.request
    ensures
      var n := Do(s, act);
      && Honest(n) && Inv(n.a) && Inv(n.b) && n.b.activating.None? && SysGrows(s, n) && BFollowsA(n)
      && (n.a.active.Some? ==> n.a.active == n.a.activating && n.b.active.Some?)
  {
    var p, i, n := act.p, SideOf(s, act.toA), Do(s, act);
    var o, use := React(i, EventOf(act)), Truthy(p.attrs.useCandidate);
    RequestKeeps(i, Judge(i, p.attrs), use, act.key, act.priority, act.admitted, act.newTid, act.info);
    assert PacketOk(s, p);
    GrowsReflexive(s.a);
    GrowsReflexive(s.b);
    if o.reaction.Replied? && use {
      OnlyTheOtherIsAccepted(s, act.toA, p);
      AnsweredOnActive(s, act);
      assert SessionGrows(s.a, n.a, p.tid);
    } else {
      LinkStays(s, n);
    }
  }

  /** The reply to a request is one that honest peers send. */
  lemma ReplyIsOk(s: Sys, act: Action)
    requires SysInv(s) && act.Deliver? && May(s, act) && act.p.request
    requires React(SideOf(s, act.toA), EventOf(act)).reaction.Replied?
    requires SysGrows(s, Do(s, act))
    ensures
      var o := React(SideOf(s, act.toA), EventOf(act));
      PacketOk(Do(s, act), ReplyPacket(s, act.toA, act.p, o.info, o.reaction.useCandidate, act.seen))
  {
    var p, i, n := act.p, SideOf(s, act.toA), Do(s, act);
    var o, use := React(i, EventOf(act)), Truthy(p.attrs.useCandidate);
    RequestKeeps(i, Judge(i, p.attrs), use, act.key, act.priority, act.admitted, act.newTid, act.info);
    assert PacketOk(s, p);
    OnlyTheOtherIsAccepted(s, act.toA, p);
    var r := ReplyPacket(s, act.toA, p, o.info, use, act.seen);
    assert r.attrs == Attrs(n, act.toA, use, act.seen);
    if use {
      AnsweredOnActive(s, act);
      assert SessionGrows(s.a, n.a, p.tid);
    }
  }

  lemma RequestKeepsPackets(s: Sys, act: Action)
    requires SysInv(s) && act.Deliver? && May(s, act) && act.p.request && SysGrows(s, Do(s, act))
    ensures forall p :: p in Do(s, act).sent ==> PacketOk(Do(s, act), p)
  {
    var n := Do(s, act);
    PacketsStay(s, n);
    forall p | p in n.sent ensures PacketOk(n, p) {
      if p !in s.sent {
        ReplyIsOk(s, act);
      }
    }
  }

  lemma RequestArrives(s: Sys, act: Action)
    requires SysInv(s) && act.Deliver? && May(s, act) && act.p.request
    ensures SysInv(Do(s, act))
  {
    RequestKeepsPeers(s, act);
    RequestKeepsPackets(s, act);
  }

  /** A response changes the active session only at a, and then to the nominated one. */
  lemma ResponseActivates(s: Sys, act: Action)
    requires SysInv(s) && act.Deliver? && May(s, act) && !act.p.request
    ensures
      var i, o := SideOf(s, act.toA), React(SideOf(s, act.toA), EventOf(act));
      && Inv(o.ice) && Grows(i, o.ice) && o.ice.peer == i.peer
      && (!i.controlling ==> o.ice.activating == i.activating)
      && !o.reaction.Replied?
      && (o.ice.active != i.active ==> act.toA && o.ice.active == i.activating && s.b.active.Some?)
  {
    var p, i := act.p, SideOf(s, act.toA);
    ResponseKeeps(i, p.tid, Judge(i, p.attrs), Truthy(p.attrs.useCandidate), act.info);
    assert PacketOk(s, p);
    if React(i, EventOf(act)).ice.active != i.active {
      OnlyTheOtherIsAccepted(s, act.toA, p);
    }
  }

  lemma ResponseArrives(s: Sys, act: Action)
    requires SysInv(s) && act.Deliver? && May(s, act) && !act.p.request
    ensures SysInv(Do(s, act))
  {
    var n := Do(s, act);
    ResponseActivates(s, act);
    GrowsReflexive(s.a);
    GrowsReflexive(s.b);
    PacketsStay(s, n);
    LinkStays(s, n);
  }

  lemma ActionKeeps(s: Sys, act: Action)
    requires SysInv(s) && May(s, act)
    ensures SysInv(Do(s, act))
  {
    match act
    case Local(onA, e) => LocalKeeps(s, onA, e);
    case Send(fromA, t, seen) => SendKeeps(s, fromA, t, seen);
    case Deliver(_, p, _, _, _, _, _, _) =>
      if p.request {
        RequestArrives(s, act);
      } else {
        ResponseArrives(s, act);
      }
  }

  ghost predicate SysSteps(s: Sys, n: Sys) {
    exists act :: May(s, act) && n == Do(s, act)
  }

  ghost predicate IsSysRun(run: seq<Sys>) {
    && run != [] && InitialSys(run[0])
    && forall k :: 0 <= k < |run| - 1 ==> SysSteps(run[k], run[k + 1])
  }

  lemma {:induction false} RunKeepsSysInv(run: seq<Sys>, k: nat)
    requires IsSysRun(run) && k < |run|
    ensures SysInv(run[k])
  {
    if k == 0 {
      InitialInv(run[0].a);
      InitialInv(run[0].b);
    } else {
      RunKeepsSysInv(run, k - 1);
      assert SysSteps(run[k - 1], run[k - 1 + 1]);
      var act :| May(run[k - 1], act) && run[k] == Do(run[k - 1], act);
      ActionKeeps(run[k - 1], act);
    }
  }

  /** Whenever the controlling peer has an active session it is the one it nominated, the controlled
      peer has made active the session that nomination is routed to, and every answer to it ever
      sent was given on exactly that session. */
  lemma NominationAgreement(run: seq<Sys>, k: nat)
    requires IsSysRun(run) && k < |run|
    ensures
      var s := run[k];
      s.a.active.Some? ==>
        && s.a.active == s.a.activating && s.a.active.value in s.a.byTid
        && s.b.active.Some? && s.b.active.value in s.b.byTid
        && s.b.byTid[s.b.active.value].key == s.route(s.a.byTid[s.a.active.value].key)
        && forall p :: p in s.sent && !p.request && Truthy(p.attrs.useCandidate) ==>
             p.tid == s.a.active.value && p.answeredOn == s.b.active
  {
    RunKeepsSysInv(run, k);
    var s := run[k];
    if s.a.active.Some? {
      forall p | p in s.sent && !p.request && Truthy(p.attrs.useCandidate)
        ensures p.tid == s.a.active.value && p.answeredOn == s.b.active
      {
        assert PacketOk(s, p);
      }
    }
  }

  /** The controlled peer is first: it was active before the step that makes the other one active. */
  lemma ControlledPeerIsFirst(run: seq<Sys>, k: nat)
    requires IsSysRun(run) && k + 1 < |run|
    requires run[k].a.active.None? && run[k + 1].a.active.Some?
    ensures run[k].b.active.Some? && run[k + 1].b.active == run[k].b.active
  {
    RunKeepsSysInv(run, k);
    assert SysSteps(run[k], run[k + 1]);
    var s := run[k];
    var act :| May(s, act) && run[k + 1] == Do(s, act);
    match act
    case Local(onA, e) => LocalLeavesActive(SideOf(s, onA), e);
    case Send(_, _, _) =>
    case Deliver(toA, p, _, _, _, _, _, _) =>
      var i := SideOf(s, toA);
      assert PacketOk(s, p);
      if p.request {
        RequestKeeps(i, Judge(i, p.attrs), Truthy(p.attrs.useCandidate),
                     act.key, act.priority, act.admitted, act.newTid, act.info);
        OnlyTheOtherIsAccepted(s, toA, p);
      } else {
        ResponseKeeps(i, p.tid, Judge(i, p.attrs), Truthy(p.attrs.useCandidate), act.info);
        OnlyTheOtherIsAccepted(s, toA, p);
      }
  }

  /** Why candidates must not be turned away: on a peer that has no active session, a nomination is
      answered although there is none afterwards exactly if its candidates were turned away and no open
      session has its key. */
  lemma AnswerWithoutSession(i: Ice, key: string, priority: int, admitted: bool, newTid: Tid, info: Option<Tid>)
    requires Inv(i) && newTid !in i.byTid && (info.Some? ==> info.value in i.byTid) && i.active.None?
    ensures
      var o := TakeRequest(i, Accepted, true, key, priority, admitted, newTid, info);
      o.reaction == Replied(true) && o.ice.active.None?
      <==> !i.closed && i.peer.Some? && info.None? && !admitted && !(key in i.byKey && IsOpen(i, i.byKey[key]))
  {
    RequestKeeps(i, Accepted, true, key, priority, admitted, newTid, info);
  }
}
