/** The session table of one ICE peer and what its packet handlers do to it (src/rpc/ice.js),
    as values; the objects that carry this state are in IceObjects. */
module IceSessions {
  import opened Wrappers
  import opened Stun
  import opened IceCredentials

  datatype State = Init | Checking | Ready | Activating | Active | Closed

  function Rank(s: State): nat {
    match s
    case Init => 0 case Checking => 1 case Ready => 2 case Activating => 3 case Active => 4 case Closed => 5
  }

  /** Sessions are known by the four-byte key of their transaction id, read as a number. */
  type Tid = nat

  /** `nominated` tells that the session's packet now carries USE_CANDIDATE. */
  datatype Session = Session(key: string, priority: int, state: State, nominated: bool)

  datatype Ice = Ice(
    controlling: bool, local: Credentials, peer: Option<Credentials>, closed: bool,
    byTid: map<Tid, Session>, byKey: map<string, Tid>,
    activating: Option<Tid>, active: Option<Tid>)

  predicate IsOpen(i: Ice, t: Tid) { t in i.byTid && i.byTid[t].state != Closed }

  function WithState(i: Ice, t: Tid, s: State): Ice
    requires t in i.byTid
  {
    i.(byTid := i.byTid[t := i.byTid[t].(state := s)])
  }

  // ------------------------------------------------------------ closing

  function AllClosed(m: map<Tid, Session>): map<Tid, Session> {
    map t | t in m :: m[t].(state := Closed)
  }

  function CloseIce(i: Ice): Ice {
    if i.closed then i else i.(closed := true, byTid := AllClosed(i.byTid))
  }

  /** Closing the active session closes the whole peer. */
  function CloseSession(i: Ice, t: Tid): Ice
    requires t in i.byTid
  {
    if i.byTid[t].state == Closed then i
    else if i.active == Some(t) then CloseIce(WithState(i, t, Closed))
    else WithState(i, t, Closed)
  }

  lemma ClosesOnlyItself(i: Ice, t: Tid)
    requires t in i.byTid && (i.byTid[t].state == Closed || i.active != Some(t) || i.closed)
    ensures CloseSession(i, t) == WithState(i, t, Closed)
  {
    if i.byTid[t].state == Closed {
      assert WithState(i, t, Closed).byTid == i.byTid;
    }
  }

  // ----------------------------------------------------------- creating

  function NewSession(i: Ice, key: string, priority: int, state: State, newTid: Tid): Ice {
    i.(byTid := i.byTid[newTid := Session(key, priority, state, false)], byKey := i.byKey[key := newTid])
  }

  /** An open session of the same key is kept; a new one needs candidates that match. */
  function AddSession(i: Ice, key: string, priority: int, admitted: bool, newTid: Tid): (Ice, Option<Tid>) {
    if key in i.byKey && IsOpen(i, i.byKey[key]) then (i, Some(i.byKey[key]))
    else if !admitted then (i, None)
    else (NewSession(i, key, priority, Init, newTid), Some(newTid))
  }

  function MarkChecking(i: Ice, t: Tid): Ice
    requires t in i.byTid
  {
    if i.byTid[t].state == Init then WithState(i, t, Checking) else i
  }

  /** Adding a session, or finding it, and starting its checks. */
  function CheckConnectivity(i: Ice, key: string, priority: int, admitted: bool, newTid: Tid): Ice {
    if key in i.byKey && IsOpen(i, i.byKey[key]) then MarkChecking(i, i.byKey[key])
    else if !admitted then i
    else NewSession(i, key, priority, Checking, newTid)
  }

  lemma CheckIsAddThenMark(i: Ice, key: string, priority: int, admitted: bool, newTid: Tid)
    requires key in i.byKey ==> i.byKey[key] in i.byTid
    ensures var (j, t) := AddSession(i, key, priority, admitted, newTid);
            && (t.Some? ==> IsOpen(j, t.value))
            && CheckConnectivity(i, key, priority, admitted, newTid) == if t.Some? then MarkChecking(j, t.value) else j
  {
    if !(key in i.byKey && IsOpen(i, i.byKey[key])) && admitted {
      var j := AddSession(i, key, priority, admitted, newTid).0;
      assert MarkChecking(j, newTid).byTid == i.byTid[newTid := Session(key, priority, Checking, false)];
    }
  }

  // ---------------------------------------------------------- selecting

  predicate KeyLess(a: string, b: string) {
    if b == [] then false
    else if a == [] then true
    else a[0] < b[0] || (a[0] == b[0] && KeyLess(a[1..], b[1..]))
  }

  lemma {:induction false} KeyLessTotal(a: string, b: string)
    ensures a == b || KeyLess(a, b) || KeyLess(b, a)
    ensures !(KeyLess(a, b) && KeyLess(b, a)) && !KeyLess(a, a)
  {
    if a == [] {
    } else {
      KeyLessTotal(a[1..], a[1..]);
      if b != [] {
        KeyLessTotal(a[1..], b[1..]);
        assert a == [a[0]] + a[1..] && b == [b[0]] + b[1..];
      }
    }
  }

  lemma {:induction false} KeyLessTransitive(a: string, b: string, c: string)
    requires KeyLess(a, b) && KeyLess(b, c)
    ensures KeyLess(a, c)
  {
    if a == [] || !(a[0] == b[0] == c[0]) {
    } else {
      KeyLessTransitive(a[1..], b[1..], c[1..]);
    }
  }

  /** The key order is the lexicographic one: at the first difference the smaller character, or the end. */
  lemma {:induction false} KeyLessIsLexicographic(a: string, b: string, n: nat)
    requires n <= |a| && n <= |b| && a[..n] == b[..n]
    requires n < |a| && n < |b| ==> a[n] != b[n]
    ensures KeyLess(a, b) <==> n < |b| && (n == |a| || a[n] < b[n])
  {
    if n == 0 {
    } else {
      assert a[0] == a[..n][0] == b[..n][0] == b[0];
      assert a[1..][..n - 1] == a[..n][1..] == b[1..][..n - 1];
      KeyLessIsLexicographic(a[1..], b[1..], n - 1);
    }
  }

  /** `b` is preferred: higher priority, or the greater key among equals. */
  predicate Below(a: Session, b: Session) {
    a.priority < b.priority || (a.priority == b.priority && KeyLess(a.key, b.key))
  }

  ghost predicate IsBest(m: map<Tid, Session>, t: Tid) {
    && t in m && m[t].state == Ready
    && forall u :: u in m && m[u].state == Ready ==> !Below(m[t], m[u])
  }

  ghost function BestReady(m: map<Tid, Session>): Option<Tid> {
    if exists t :: IsBest(m, t) then
      var t :| IsBest(m, t);
      Some(t)
    else None
  }

  /** No two open sessions share a key. */
  ghost predicate KeysDistinct(m: map<Tid, Session>) {
    forall t, u :: t in m && u in m && m[t].state != Closed && m[u].state != Closed && m[t].key == m[u].key ==> t == u
  }

  lemma MovedKeysDistinct(i: Ice, t: Tid, s: State)
    requires KeysDistinct(i.byTid) && IsOpen(i, t)
    ensures KeysDistinct(WithState(i, t, s).byTid)
  {
    var m := i.byTid;
    forall u, v | u in m && v in m && WithState(i, t, s).byTid[u].state != Closed
                  && WithState(i, t, s).byTid[v].state != Closed && m[u].key == m[v].key
      ensures u == v
    {
      assert m[u].state != Closed && m[v].state != Closed;
    }
  }

  /** Every open session is the one its key leads to; this too holds in every reachable table. */
  ghost predicate KeysOwned(i: Ice) {
    forall t :: IsOpen(i, t) ==> i.byTid[t].key in i.byKey && i.byKey[i.byTid[t].key] == t
  }

  /** A session is added only when no open one has its key. */
  lemma AddedKeysDistinct(i: Ice, key: string, priority: int, admitted: bool, newTid: Tid)
    requires KeysOwned(i) && newTid !in i.byTid
    ensures KeysDistinct(i.byTid) && KeysDistinct(AddSession(i, key, priority, admitted, newTid).0.byTid)
  {
    var j := AddSession(i, key, priority, admitted, newTid).0;
    forall t, u | t in j.byTid && u in j.byTid && j.byTid[t].state != Closed && j.byTid[u].state != Closed
                  && j.byTid[t].key == j.byTid[u].key
      ensures t == u
    {
      assert t in i.byTid ==> IsOpen(i, t);
      assert u in i.byTid ==> IsOpen(i, u);
    }
  }

  /** The best ready session is unique, so it does not depend on the order of the search. */
  lemma BestIsUnique(m: map<Tid, Session>, t: Tid)
    requires KeysDistinct(m) && IsBest(m, t)
    ensures BestReady(m) == Some(t)
    ensures forall u :: IsBest(m, u) ==> u == t
  {
    forall u | IsBest(m, u) ensures u == t {
      KeyLessTotal(m[t].key, m[u].key);
    }
  }

  ghost predicate NoOpenAbove(m: map<Tid, Session>, priority: int) {
    forall u :: u in m && m[u].state != Closed ==> m[u].priority <= priority
  }

  // --------------------------------------------------------- activating

  /** Start activating, once in the life of a peer; the session returned sends its nomination. */
  function Activate(i: Ice, t: Tid): (Ice, Option<Tid>)
    requires t in i.byTid
  {
    if i.closed || i.activating.Some? then (i, None)
    else (i.(activating := Some(t),
               byTid := i.byTid[t := i.byTid[t].(state := Activating, nominated := true)]), Some(t))
  }

  /** The best ready session, unless an open session ranks above it and the choice is not forced. */
  ghost function ToActivate(i: Ice, force: bool): Option<Tid> {
    if i.closed || !i.controlling then None
    else match BestReady(i.byTid)
      case None => None
      case Some(t) => if t in i.byTid && (force || NoOpenAbove(i.byTid, i.byTid[t].priority)) then Some(t) else None
  }

  ghost function FindSessionToActivate(i: Ice, force: bool): (Ice, Option<Tid>) {
    match ToActivate(i, force)
    case None => (i, None)
    case Some(t) => if t in i.byTid then Activate(i, t) else (i, None)
  }

  /** Make a session the active one and close all others; nothing once there is an active one. */
  function Complete(i: Ice, t: Tid): Ice
    requires t in i.byTid
  {
    if i.closed || i.active.Some? then i
    else i.(active := Some(t), byTid := AllClosed(i.byTid)[t := i.byTid[t].(state := Active)])
  }

  // ------------------------------------------------------------ packets

  datatype Reaction =
    | BadPacket
    | Threw
    | Handled
    | Replied(useCandidate: bool)

  /** After a packet: the peer, the session now tied to the packet's channel, the reaction, and the
      session that just sent its nomination. */
  datatype Outcome = Outcome(ice: Ice, info: Option<Tid>, reaction: Reaction, nominated: Option<Tid>)

  function MarkReady(i: Ice, t: Tid): (Ice, bool)
    requires t in i.byTid
  {
    if i.byTid[t].state == Init || i.byTid[t].state == Checking then (WithState(i, t, Ready), true) else (i, false)
  }

  predicate AcceptsPacket(i: Ice, m: AttrsMap) {
    CheckCredentials(i.local, if i.peer.Some? then Some(i.peer.value.ufrag) else None, m.username, m.password)
  }

  datatype Verdict = Accepted | BadCredentials | BadRole

  function Judge(i: Ice, m: AttrsMap): Verdict {
    if !AcceptsPacket(i, m) || m.address.None? then BadCredentials
    else if RoleConflict(m, i.controlling) then BadRole
    else Accepted
  }

  /** After a session got ready the search runs; then the session the peer nominated gets active. */
  ghost function Advance(i: Ice, changed: bool, t: Tid, nominate: bool): (Ice, Option<Tid>) {
    var (found, sent) := if changed then FindSessionToActivate(i, false) else (i, None);
    (if nominate && t in found.byTid then Complete(found, t) else found, sent)
  }

  /** A session becomes ready, perhaps is chosen, perhaps is nominated by the peer. */
  ghost function ReadySession(i: Ice, t: Tid, nominate: bool): (Ice, Option<Tid>)
    requires t in i.byTid
  {
    var (ready, changed) := MarkReady(i, t);
    Advance(ready, changed, t, nominate)
  }

  /** Take the session `t` of a request, if there is one, to ready and perhaps to active. */
  ghost function AnswerOn(i: Ice, t: Option<Tid>, use: bool): Outcome {
    if t.None? || t.value !in i.byTid then Outcome(i, t, Replied(use), None)
    else if i.byTid[t.value].state == Closed then Outcome(i, t, Threw, None)
    else
      var (j, sent) := ReadySession(i, t.value, use);
      Outcome(j, t, Replied(use), sent)
  }

  /** `info` is the session of the packet's channel, if it has one; otherwise the addresses
      give a session key. */
  ghost function AnswerRequestOn(i: Ice, use: bool, key: string, priority: int, admitted: bool,
                                 newTid: Tid, info: Option<Tid>): Outcome
  {
    var (j, t) := if info.Some? then (i, info) else AddSession(i, key, priority, admitted, newTid);
    AnswerOn(j, t, use)
  }

  ghost function TakeRequest(i: Ice, v: Verdict, use: bool, key: string, priority: int, admitted: bool,
                             newTid: Tid, info: Option<Tid>): Outcome
  {
    if i.closed || !v.Accepted? then Outcome(i, info, BadPacket, None)
    else if i.peer.None? then Outcome(i, info, Threw, None)
    else AnswerRequestOn(i, use, key, priority, admitted, newTid, info)
  }

  ghost function HandleRequest(i: Ice, m: AttrsMap, key: string, priority: int, admitted: bool,
                               newTid: Tid, info: Option<Tid>): Outcome
  {
    TakeRequest(i, Judge(i, m), Truthy(m.useCandidate), key, priority, admitted, newTid, info)
  }

  function MarkBothReady(i: Ice, s: Tid, t: Tid): (Ice, bool)
    requires s in i.byTid && t in i.byTid
  {
    var (j, first) := MarkReady(i, s);
    var (k, second) := MarkReady(j, t);
    (k, first || second)
  }

  lemma BothKeysDistinct(i: Ice, s: Tid, t: Tid)
    requires KeysDistinct(i.byTid) && IsOpen(i, s) && IsOpen(i, t)
    ensures KeysDistinct(MarkBothReady(i, s, t).0.byTid)
  {
    MovedKeysDistinct(i, s, Ready);
    MovedKeysDistinct(MarkReady(i, s).0, t, Ready);
  }

  /** An accepted response for the open session `tid`, on a channel of session `s`. */
  ghost function FinishOn(i: Ice, tid: Tid, use: bool, s: Tid): Outcome
    requires tid in i.byTid && s in i.byTid
  {
    if i.byTid[s].state == Closed then Outcome(i, Some(s), Threw, None)
    else
      var (j, changed) := MarkBothReady(i, s, tid);
      var (k, sent) := Advance(j, changed, tid, use);
      Outcome(k, Some(s), Handled, sent)
  }

  /** A response; one that fails the credential check closes the session it names. */
  ghost function TakeResponse(i: Ice, tid: Tid, v: Verdict, use: bool, info: Option<Tid>): Outcome {
    if i.closed || !IsOpen(i, tid) then Outcome(i, info, BadPacket, None)
    else match v
      case BadCredentials => Outcome(CloseSession(i, tid), info, BadPacket, None)
      case BadRole => Outcome(i, info, BadPacket, None)
      case Accepted => FinishOn(i, tid, use, if info.Some? && info.value in i.byTid then info.value else tid)
  }

  ghost function HandleResponse(i: Ice, tid: Tid, m: AttrsMap, info: Option<Tid>): Outcome {
    TakeResponse(i, tid, Judge(i, m), Truthy(m.useCandidate), info)
  }

  // -------------------------------------------------------------- steps

  datatype Event =
    | Signalled(peer: Credentials)
    | Check(key: string, priority: int, admitted: bool, newTid: Tid)
    | Request(attrs: AttrsMap, key: string, priority: int, admitted: bool, newTid: Tid, info: Option<Tid>)
    | Response(tid: Tid, attrs: AttrsMap, info: Option<Tid>)
    | ForceTimer
    | SessionCloses(t: Tid)
    | IceCloses

  /** A random transaction id is any that is not in use. */
  ghost predicate Enabled(i: Ice, e: Event) {
    match e
    case Signalled(_) => i.peer.None?
    case Check(_, _, _, newTid) => newTid !in i.byTid && i.peer.Some?
    case Request(_, _, _, _, newTid, info) => newTid !in i.byTid && (info.Some? ==> info.value in i.byTid)
    case Response(_, _, info) => info.Some? ==> info.value in i.byTid
    case ForceTimer => true
    case SessionCloses(t) => t in i.byTid
    case IceCloses => true
  }

  ghost function React(i: Ice, e: Event): Outcome
    requires Enabled(i, e)
  {
    match e
    case Signalled(peer) => Outcome(i.(peer := Some(peer)), None, Handled, None)
    case Check(key, priority, admitted, newTid) =>
      Outcome(CheckConnectivity(i, key, priority, admitted, newTid), None, Handled, None)
    case Request(attrs, key, priority, admitted, newTid, info) =>
      HandleRequest(i, attrs, key, priority, admitted, newTid, info)
    case Response(tid, attrs, info) => HandleResponse(i, tid, attrs, info)
    case ForceTimer =>
      var (j, sent) := FindSessionToActivate(i, true);
      Outcome(j, None, Handled, sent)
    case SessionCloses(t) => Outcome(CloseSession(i, t), None, Handled, None)
    case IceCloses => Outcome(CloseIce(i), None, Handled, None)
  }

  predicate Initial(i: Ice) {
    && i.peer == None && !i.closed && i.byTid == map[] && i.byKey == map[]
    && i.activating == None && i.active == None
  }

  ghost predicate KeyOk(i: Ice, k: string)
    requires k in i.byKey
  {
    i.byKey[k] in i.byTid && i.byTid[i.byKey[k]].key == k
  }

  /** What every session of the table satisfies. */
  ghost predicate SessionOk(i: Ice, t: Tid)
    requires t in i.byTid
  {
    var s := i.byTid[t];
    && s.key in i.byKey
    && (s.state != Closed ==> i.byKey[s.key] == t)
    && (s.state == Activating ==> i.activating == Some(t))
    && (s.state == Active ==> i.active == Some(t))
    && (s.nominated <==> i.activating == Some(t))
    && (i.activating == Some(t) ==> Rank(s.state) >= Rank(Activating))
    && (i.active == Some(t) ==> s.state == if i.closed then Closed else Active)
    && (i.closed ==> s.state == Checking || s.state == Closed)
  }

  /** What holds between any two steps of one peer. */
  ghost predicate Inv(i: Ice) {
    && (forall k :: k in i.byKey ==> KeyOk(i, k))
    && (forall t :: t in i.byTid ==> SessionOk(i, t))
    && (i.peer.None? ==> i.byTid == map[])
    && (i.activating.Some? ==> i.activating.value in i.byTid)
    && (i.active.Some? ==> i.active.value in i.byTid)
  }

  lemma InvGivesDistinctKeys(i: Ice)
    requires Inv(i)
    ensures KeysDistinct(i.byTid) && KeysOwned(i)
  {
    forall t | IsOpen(i, t) ensures i.byTid[t].key in i.byKey && i.byKey[i.byTid[t].key] == t {
      assert SessionOk(i, t);
    }
    forall t, u | t in i.byTid && u in i.byTid && i.byTid[t].state != Closed && i.byTid[u].state != Closed
                  && i.byTid[t].key == i.byTid[u].key
      ensures t == u
    {
      assert SessionOk(i, t) && SessionOk(i, u);
    }
  }

  ghost predicate SessionGrows(i: Ice, j: Ice, t: Tid)
    requires t in i.byTid
  {
    && t in j.byTid
    && j.byTid[t].key == i.byTid[t].key && j.byTid[t].priority == i.byTid[t].priority
    && Rank(i.byTid[t].state) <= Rank(j.byTid[t].state)
  }

  /** What never changes or only advances. */
  ghost predicate Grows(i: Ice, j: Ice) {
    && j.controlling == i.controlling && j.local == i.local
    && (i.peer.Some? ==> j.peer == i.peer)
    && (i.closed ==> j.closed)
    && (i.activating.Some? ==> j.activating == i.activating)
    && (i.active.Some? ==> j.active == i.active)
    && (forall t :: t in i.byTid ==> SessionGrows(i, j, t))
  }
}
