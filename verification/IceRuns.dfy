/** Every run of one ICE peer, under any packets and any timing of closes (src/rpc/ice.js). */
module IceRuns {
  import opened Wrappers
  import opened IceCredentials
  import opened IceSessions

  /** Changing states alone keeps the invariant when every changed session stays in order. */
  lemma StatesKeep(i: Ice, j: Ice)
    requires Inv(i)
    requires j.byKey == i.byKey && j.byTid.Keys == i.byTid.Keys && j.peer == i.peer
    requires j.controlling == i.controlling && j.local == i.local
    requires i.closed ==> j.closed
    requires i.activating.Some? ==> j.activating == i.activating
    requires i.active.Some? ==> j.active == i.active
    requires j.activating.Some? ==> j.activating.value in i.byTid
    requires j.active.Some? ==> j.active.value in i.byTid
    requires forall t :: t in j.byTid ==> SessionOk(j, t)
    requires forall t :: t in i.byTid ==> SessionGrows(i, j, t)
    ensures Inv(j) && Grows(i, j)
  {
    forall k | k in j.byKey ensures KeyOk(j, k) {
      assert KeyOk(i, k);
      assert SessionGrows(i, j, i.byKey[k]);
    }
  }

  lemma GrowsReflexive(i: Ice)
    ensures Grows(i, i)
  {
    assert forall t :: t in i.byTid ==> SessionGrows(i, i, t);
  }

  lemma MoveSession(i: Ice, t: Tid, s: State, u: Tid)
    requires t in i.byTid && u in i.byTid && SessionOk(i, u) && Rank(i.byTid[t].state) <= Rank(s)
    requires s == Closed || (i.byTid[t].state != Closed && Rank(s) < Rank(Activating))
    requires i.closed ==> s == Closed || s == Checking
    requires i.active == Some(t) ==> i.closed
    ensures var j := WithState(i, t, s);
            u in j.byTid && SessionOk(j, u) && SessionGrows(i, j, u)
  {
  }

  /** One session moves up to a state that claims nothing about the peer. */
  lemma MoveKeeps(i: Ice, t: Tid, s: State)
    requires Inv(i) && t in i.byTid && Rank(i.byTid[t].state) <= Rank(s)
    requires s == Closed || (i.byTid[t].state != Closed && Rank(s) < Rank(Activating))
    requires i.closed ==> s == Closed || s == Checking
    requires i.active == Some(t) ==> i.closed
    ensures Inv(WithState(i, t, s)) && Grows(i, WithState(i, t, s))
  {
    var j := WithState(i, t, s);
    forall u | u in i.byTid ensures SessionOk(j, u) && SessionGrows(i, j, u) {
      MoveSession(i, t, s, u);
    }
    StatesKeep(i, j);
  }

  lemma MarkReadyKeeps(i: Ice, t: Tid)
    requires Inv(i) && IsOpen(i, t) && !i.closed
    ensures var (j, changed) := MarkReady(i, t);
            && Inv(j) && Grows(i, j) && j.active == i.active && j.activating == i.activating
            && !j.closed && j.peer == i.peer
            && forall u :: IsOpen(i, u) ==> IsOpen(j, u)
  {
    assert SessionOk(i, t);
    GrowsReflexive(i);
    if MarkReady(i, t).1 {
      MoveKeeps(i, t, Ready);
    }
  }

  lemma ActivateSessions(i: Ice, t: Tid, u: Tid)
    requires t in i.byTid && SessionOk(i, t) && i.byTid[t].state == Ready && u in i.byTid && SessionOk(i, u)
    ensures var j := Activate(i, t).0;
            u in j.byTid && SessionOk(j, u) && SessionGrows(i, j, u) && (IsOpen(i, u) ==> IsOpen(j, u))
  {
  }

  lemma ActivateKeeps(i: Ice, t: Tid)
    requires Inv(i) && t in i.byTid && i.byTid[t].state == Ready
    ensures var (j, sent) := Activate(i, t);
            && Inv(j) && Grows(i, j) && j.active == i.active && j.closed == i.closed && j.peer == i.peer
            && (forall u :: IsOpen(i, u) ==> IsOpen(j, u))
            && (sent.None? ==> j == i)
            && (sent.Some? ==> i.activating.None? && j.activating == sent)
  {
    var j := Activate(i, t).0;
    forall u | u in i.byTid
      ensures SessionOk(j, u) && SessionGrows(i, j, u) && (IsOpen(i, u) ==> IsOpen(j, u))
    {
      ActivateSessions(i, t, u);
    }
    StatesKeep(i, j);
  }

  lemma FindKeeps(i: Ice, force: bool)
    requires Inv(i)
    ensures var (j, sent) := FindSessionToActivate(i, force);
            && Inv(j) && Grows(i, j) && j.active == i.active && j.closed == i.closed && j.peer == i.peer
            && (forall u :: IsOpen(i, u) ==> IsOpen(j, u))
            && (sent.None? ==> j == i)
            && (sent.Some? ==> i.controlling && i.activating.None? && j.activating == sent)
  {
    GrowsReflexive(i);
    var best := ToActivate(i, force);
    if best.Some? {
      assert IsBest(i.byTid, best.value);
      ActivateKeeps(i, best.value);
    }
  }

  lemma CompleteSession(i: Ice, t: Tid, u: Tid)
    requires IsOpen(i, t) && !i.closed && SessionOk(i, t) && u in i.byTid && SessionOk(i, u)
    ensures var j := Complete(i, t);
            u in j.byTid && SessionOk(j, u) && SessionGrows(i, j, u)
  {
  }

  lemma CompleteKeeps(i: Ice, t: Tid)
    requires Inv(i) && IsOpen(i, t) && !i.closed
    ensures var j := Complete(i, t);
            && Inv(j) && Grows(i, j) && j.activating == i.activating && j.closed == i.closed && j.peer == i.peer
            && j.active == (if i.active.Some? then i.active else Some(t))
  {
    var j := Complete(i, t);
    forall u | u in i.byTid ensures SessionOk(j, u) && SessionGrows(i, j, u) {
      CompleteSession(i, t, u);
    }
    StatesKeep(i, j);
  }

  lemma CloseIceKeeps(i: Ice)
    requires Inv(i)
    ensures var j := CloseIce(i);
            Inv(j) && Grows(i, j) && j.closed &&
            j.activating == i.activating && j.active == i.active && j.peer == i.peer
  {
    var j := CloseIce(i);
    forall u | u in i.byTid ensures SessionOk(j, u) && SessionGrows(i, j, u) {
      assert SessionOk(i, u);
    }
    StatesKeep(i, j);
  }

  lemma ActiveClosesAll(i: Ice, t: Tid)
    requires t in i.byTid && i.byTid[t].state != Closed && i.active == Some(t)
    ensures CloseSession(i, t) == if i.closed then WithState(i, t, Closed) else CloseIce(i)
  {
    assert AllClosed(WithState(i, t, Closed).byTid) == AllClosed(i.byTid);
  }

  lemma CloseKeeps(i: Ice, t: Tid)
    requires Inv(i) && t in i.byTid
    ensures var j := CloseSession(i, t);
            && Inv(j) && Grows(i, j) && j.activating == i.activating && j.active == i.active && j.peer == i.peer
            && j.byTid[t].state == Closed
  {
    assert SessionOk(i, t);
    if i.byTid[t].state == Closed {
      GrowsReflexive(i);
    } else if i.active == Some(t) {
      ActiveClosesAll(i, t);
      CloseIceKeeps(i);
    } else {
      MoveKeeps(i, t, Closed);
    }
  }

  /** Adding a session, whose first state is Init or, on a closed peer, already Checking. */
  lemma NewSessionKeeps(i: Ice, key: string, priority: int, state: State, newTid: Tid)
    requires Inv(i) && newTid !in i.byTid && i.peer.Some?
    requires key !in i.byKey || !IsOpen(i, i.byKey[key])
    requires state == Checking || (state == Init && !i.closed)
    ensures Inv(NewSession(i, key, priority, state, newTid)) && Grows(i, NewSession(i, key, priority, state, newTid))
  {
    var j := NewSession(i, key, priority, state, newTid);
    forall k | k in j.byKey ensures KeyOk(j, k) {
      if k != key {
        assert KeyOk(i, k);
      }
    }
    forall u | u in j.byTid ensures SessionOk(j, u) {
      if u != newTid {
        assert SessionOk(i, u);
      }
    }
    forall u | u in i.byTid ensures SessionGrows(i, j, u) {
    }
  }

  lemma AddKeeps(i: Ice, key: string, priority: int, admitted: bool, newTid: Tid)
    requires Inv(i) && newTid !in i.byTid && i.peer.Some? && !i.closed
    ensures var (j, t) := AddSession(i, key, priority, admitted, newTid);
            && Inv(j) && Grows(i, j)
            && j.activating == i.activating && j.active == i.active && j.closed == i.closed && j.peer == i.peer
            && (t.None? ==> j == i && !admitted)
            && (t.Some? ==> IsOpen(j, t.value) && j.byTid[t.value].key == key)
            && (key in i.byKey && IsOpen(i, i.byKey[key]) ==> t == Some(i.byKey[key]))
  {
    if key in i.byKey && IsOpen(i, i.byKey[key]) {
      assert KeyOk(i, key);
      GrowsReflexive(i);
    } else if !admitted {
      GrowsReflexive(i);
    } else {
      NewSessionKeeps(i, key, priority, Init, newTid);
    }
  }

  lemma MarkCheckingKeeps(i: Ice, t: Tid)
    requires Inv(i) && IsOpen(i, t)
    ensures var j := MarkChecking(i, t);
            && Inv(j) && Grows(i, j)
            && j.activating == i.activating && j.active == i.active && j.closed == i.closed && j.peer == i.peer
  {
    assert SessionOk(i, t);
    GrowsReflexive(i);
    if i.byTid[t].state == Init {
      MoveKeeps(i, t, Checking);
    }
  }

  lemma CheckKeeps(i: Ice, key: string, priority: int, admitted: bool, newTid: Tid)
    requires Inv(i) && newTid !in i.byTid && i.peer.Some?
    ensures var j := CheckConnectivity(i, key, priority, admitted, newTid);
            && Inv(j) && Grows(i, j)
            && j.activating == i.activating && j.active == i.active && j.closed == i.closed && j.peer == i.peer
  {
    if key in i.byKey && IsOpen(i, i.byKey[key]) {
      MarkCheckingKeeps(i, i.byKey[key]);
    } else if admitted {
      NewSessionKeeps(i, key, priority, Checking, newTid);
    } else {
      GrowsReflexive(i);
    }
  }

  lemma ReadyKeeps(i: Ice, t: Tid, nominate: bool)
    requires Inv(i) && IsOpen(i, t) && !i.closed
    ensures var (j, sent) := ReadySession(i, t, nominate);
            && Inv(j) && Grows(i, j) && j.closed == i.closed && j.peer == i.peer
            && j.active == (if nominate && i.active.None? then Some(t) else i.active)
            && (sent.None? ==> j.activating == i.activating)
            && (sent.Some? ==> i.controlling && i.activating.None? && j.activating == sent)
  {
    MarkReadyKeeps(i, t);
    var (ready, changed) := MarkReady(i, t);
    FindKeeps(ready, false);
    var found := if changed then FindSessionToActivate(ready, false).0 else ready;
    assert IsOpen(ready, t) && IsOpen(found, t);
    GrowsTransitive(i, ready, found);
    if nominate {
      CompleteKeeps(found, t);
      GrowsTransitive(i, found, Complete(found, t));
    }
  }

  lemma GrowsTransitive(i: Ice, j: Ice, k: Ice)
    requires Grows(i, j) && Grows(j, k)
    ensures Grows(i, k)
  {
    forall t | t in i.byTid ensures SessionGrows(i, k, t) {
      assert SessionGrows(i, j, t) && SessionGrows(j, k, t);
    }
  }

  lemma AnswerKeeps(i: Ice, t: Option<Tid>, use: bool)
    requires Inv(i) && !i.closed && (t.Some? ==> t.value in i.byTid)
    ensures
      var o := AnswerOn(i, t, use);
      && Inv(o.ice) && Grows(i, o.ice) && o.ice.peer == i.peer && !o.ice.closed && o.info == t
      && (o.reaction == Threw || (o.reaction == Replied(use) && (t.Some? ==> IsOpen(i, t.value))))
      && o.ice.active == (if o.reaction == Replied(true) && i.active.None? then t else i.active)
      && (o.nominated.None? ==> o.ice.activating == i.activating)
      && (o.nominated.Some? ==> i.controlling && i.activating.None? && o.ice.activating == o.nominated)
  {
    GrowsReflexive(i);
    if t.Some? && IsOpen(i, t.value) {
      ReadyKeeps(i, t.value, use);
    }
  }

  /** What a request, once accepted or not, may have done: `o` is its outcome on `i`. */
  ghost predicate RequestOutcome(i: Ice, use: bool, key: string, admitted: bool, info: Option<Tid>, o: Outcome) {
    && Inv(o.ice) && Grows(i, o.ice) && o.ice.peer == i.peer
    && (o.reaction.Replied? ==>
          && !i.closed && o.reaction.useCandidate == use
          && (info.Some? ==> o.info == info && IsOpen(i, info.value))
          && (info.None? && admitted ==>
                o.info.Some? && o.info.value in o.ice.byTid && o.ice.byTid[o.info.value].key == key)
          && (info.None? && key in i.byKey && IsOpen(i, i.byKey[key]) ==> o.info == Some(i.byKey[key])))
    && o.ice.active == (if o.reaction == Replied(true) && i.active.None? then o.info else i.active)
    && (o.nominated.None? ==> o.ice.activating == i.activating)
    && (o.nominated.Some? ==> i.controlling && i.activating.None? && o.ice.activating == o.nominated)
  }

  lemma AnswerRequestKeeps(i: Ice, use: bool, key: string, priority: int, admitted: bool,
                           newTid: Tid, info: Option<Tid>)
    requires Inv(i) && newTid !in i.byTid && (info.Some? ==> info.value in i.byTid) && !i.closed && i.peer.Some?
    ensures RequestOutcome(i, use, key, admitted, info, AnswerRequestOn(i, use, key, priority, admitted, newTid, info))
  {
    if info.Some? {
      AnswerKeeps(i, info, use);
    } else {
      AddKeeps(i, key, priority, admitted, newTid);
      var (j, t) := AddSession(i, key, priority, admitted, newTid);
      AnswerKeeps(j, t, use);
      var k := AnswerOn(j, t, use).ice;
      GrowsTransitive(i, j, k);
      if t.Some? {
        assert SessionGrows(j, k, t.value);
      }
    }
  }

  /** Any request, whatever it carries. */
  lemma RequestKeeps(i: Ice, v: Verdict, use: bool, key: string, priority: int,
                     admitted: bool, newTid: Tid, info: Option<Tid>)
    requires Inv(i) && newTid !in i.byTid && (info.Some? ==> info.value in i.byTid)
    ensures var o := TakeRequest(i, v, use, key, priority, admitted, newTid, info);
            RequestOutcome(i, use, key, admitted, info, o) && (o.reaction.Replied? ==> v == Accepted)
  {
    GrowsReflexive(i);
    if !i.closed && v.Accepted? && i.peer.Some? {
      AnswerRequestKeeps(i, use, key, priority, admitted, newTid, info);
    }
  }

  lemma FinishKeeps(i: Ice, tid: Tid, use: bool, s: Tid)
    requires Inv(i) && !i.closed && IsOpen(i, tid) && s in i.byTid
    ensures
      var o := FinishOn(i, tid, use, s);
      && Inv(o.ice) && Grows(i, o.ice) && o.ice.peer == i.peer
      && (o.ice.active == i.active || (use && o.ice.active == Some(tid)))
      && (o.nominated.None? ==> o.ice.activating == i.activating)
      && (o.nominated.Some? ==> i.controlling && i.activating.None? && o.ice.activating == o.nominated)
  {
    GrowsReflexive(i);
    if IsOpen(i, s) {
      MarkReadyKeeps(i, s);
      var (j, first) := MarkReady(i, s);
      assert IsOpen(j, tid);
      MarkReadyKeeps(j, tid);
      var (k, second) := MarkReady(j, tid);
      GrowsTransitive(i, j, k);
      FindKeeps(k, false);
      var l := if first || second then FindSessionToActivate(k, false).0 else k;
      assert IsOpen(k, tid) && IsOpen(l, tid);
      GrowsReflexive(k);
      GrowsTransitive(i, k, l);
      CompleteKeeps(l, tid);
      GrowsTransitive(i, l, Complete(l, tid));
    }
  }

  /** Any response, whatever it carries. */
  lemma ResponseKeeps(i: Ice, tid: Tid, v: Verdict, use: bool, info: Option<Tid>)
    requires Inv(i) && (info.Some? ==> info.value in i.byTid)
    ensures
      var o := TakeResponse(i, tid, v, use, info);
      && Inv(o.ice) && Grows(i, o.ice) && o.ice.peer == i.peer && !o.reaction.Replied?
      && (o.ice.active == i.active || (v == Accepted && use && tid in i.byTid && o.ice.active == Some(tid)))
      && (o.nominated.None? ==> o.ice.activating == i.activating)
      && (o.nominated.Some? ==> i.controlling && i.activating.None? && o.ice.activating == o.nominated)
  {
    if i.closed || !IsOpen(i, tid) || v == BadRole {
      GrowsReflexive(i);
    } else if v == BadCredentials {
      CloseKeeps(i, tid);
    } else {
      FinishKeeps(i, tid, use, if info.Some? then info.value else tid);
    }
  }

  lemma InitialInv(i: Ice)
    requires Initial(i)
    ensures Inv(i)
  {
  }

  /** Any event keeps the invariant and only moves the peer forward. */
  lemma StepKeeps(i: Ice, e: Event)
    requires Inv(i) && Enabled(i, e)
    ensures Inv(React(i, e).ice) && Grows(i, React(i, e).ice)
  {
    match e
    case Signalled(_) =>
    case Check(key, priority, admitted, newTid) => CheckKeeps(i, key, priority, admitted, newTid);
    case Request(m, key, priority, admitted, newTid, info) => 
      RequestKeeps(i, Judge(i, m), Truthy(m.useCandidate), key, priority, admitted, newTid, info);
    case Response(tid, m, info) => ResponseKeeps(i, tid, Judge(i, m), Truthy(m.useCandidate), info);
    case ForceTimer => FindKeeps(i, true);
    case SessionCloses(t) => CloseKeeps(i, t);
    case IceCloses => CloseIceKeeps(i);
  }

  ghost predicate Steps(i: Ice, j: Ice) {
    exists e :: Enabled(i, e) && j == React(i, e).ice
  }

  ghost predicate IsRun(run: seq<Ice>) {
    && run != [] && Initial(run[0])
    && forall n :: 0 <= n < |run| - 1 ==> Steps(run[n], run[n + 1])
  }

  lemma {:induction false} RunGrows(run: seq<Ice>, m: nat, n: nat)
    requires IsRun(run) && m <= n < |run|
    ensures Inv(run[m]) && Inv(run[n]) && Grows(run[m], run[n])
    decreases n
  {
    if n == 0 {
      InitialInv(run[0]);
    } else {
      var e :| Enabled(run[n - 1], e) && run[n] == React(run[n - 1], e).ice by {
        assert Steps(run[n - 1], run[n - 1 + 1]);
      }
      RunGrows(run, if m < n then m else n - 1, n - 1);
      StepKeeps(run[n - 1], e);
      if m < n {
        GrowsTransitive(run[m], run[n - 1], run[n]);
      }
    }
  }

  /** Over a whole run: session states only move up, the session being activated and the active one
      are each chosen at most once and are the only ones ever in those states, and once the peer is
      closed no session becomes ready, activating or active. */
  lemma RunSafety(run: seq<Ice>, m: nat, n: nat, t: Tid)
    requires IsRun(run) && m <= n < |run|
    ensures t in run[m].byTid ==>
      && t in run[n].byTid && run[n].byTid[t].key == run[m].byTid[t].key
      && Rank(run[m].byTid[t].state) <= Rank(run[n].byTid[t].state)
    ensures run[m].activating.Some? ==> run[n].activating == run[m].activating
    ensures run[m].active.Some? ==> run[n].active == run[m].active
    ensures t in run[m].byTid && run[m].byTid[t].state == Activating ==> run[n].activating == Some(t)
    ensures t in run[m].byTid && run[m].byTid[t].state == Active ==> run[n].active == Some(t)
    ensures run[m].closed && t in run[n].byTid ==> run[n].closed && run[n].byTid[t].state in {Checking, Closed}
    ensures forall u :: IsOpen(run[n], t) && IsOpen(run[n], u) && run[n].byTid[t].key == run[n].byTid[u].key ==> t == u
  {
    RunGrows(run, m, n);
    InvGivesDistinctKeys(run[n]);
    if t in run[m].byTid {
      assert SessionOk(run[m], t) && SessionGrows(run[m], run[n], t);
    }
    if t in run[n].byTid {
      assert SessionOk(run[n], t);
    }
  }

  /** A new session is taken exactly if its candidates match and no open session has its key; being
      closed does not keep a peer from it. */
  lemma ClosedPeerTakesSessions(i: Ice, key: string, priority: int, admitted: bool, newTid: Tid)
    requires newTid !in i.byTid
    ensures
      var j := CheckConnectivity(i, key, priority, admitted, newTid);
      && (IsOpen(j, newTid) <==> admitted && !(key in i.byKey && IsOpen(i, i.byKey[key])))
      && (newTid in j.byTid <==> IsOpen(j, newTid)) && j.closed == i.closed
  {
  }

  /** The ready session with the highest priority, and among equals with the greatest key. */
  ghost predicate Tops(i: Ice, t: Tid) {
    && t in i.byTid && i.byTid[t].state == Ready
    && forall u :: u in i.byTid && i.byTid[u].state == Ready && u != t ==>
         || i.byTid[u].priority < i.byTid[t].priority
         || (i.byTid[u].priority == i.byTid[t].priority && KeyLess(i.byTid[u].key, i.byTid[t].key))
  }

  lemma TopIsBest(i: Ice, t: Tid)
    requires KeysDistinct(i.byTid)
    ensures Tops(i, t) <==> IsBest(i.byTid, t)
  {
    forall u | u in i.byTid && t in i.byTid
      ensures KeyLess(i.byTid[t].key, i.byTid[u].key) ==> !KeyLess(i.byTid[u].key, i.byTid[t].key)
      ensures i.byTid[t].key == i.byTid[u].key || KeyLess(i.byTid[t].key, i.byTid[u].key)
              || KeyLess(i.byTid[u].key, i.byTid[t].key)
    {
      KeyLessTotal(i.byTid[u].key, i.byTid[t].key);
    }
  }

  /** A nomination starts exactly for the one best ready session, on an open controlling peer that
      has not chosen yet, and unless forced only when no open session ranks above it. */
  lemma SelectionIsBest(i: Ice, force: bool, t: Tid)
    requires Inv(i)
    ensures FindSessionToActivate(i, force).1 == Some(t) <==>
            && !i.closed && i.controlling && i.activating.None? && Tops(i, t)
            && (force || forall u :: IsOpen(i, u) ==> i.byTid[u].priority <= i.byTid[t].priority)
    ensures forall u :: Tops(i, t) && Tops(i, u) ==> u == t
    ensures FindSessionToActivate(i, force).1 == Some(t) ==>
            FindSessionToActivate(i, force).0.byTid[t].state == Activating
  {
    InvGivesDistinctKeys(i);
    TopIsBest(i, t);
    if u :| IsBest(i.byTid, u) {
      BestIsUnique(i.byTid, u);
    }
    forall u | Tops(i, t) && Tops(i, u) ensures u == t {
      TopIsBest(i, u);
    }
  }
}
