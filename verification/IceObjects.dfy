/** The objects of one node-to-node connection: its sessions, its ICE peer and the connection
    itself, tied together by 'close' listeners (src/rpc/ice.js, src/rpc/rpc_n2n.js). */
module IceObjects {
  import opened Wrappers
  import opened Stun
  import opened IceCredentials
  import opened IceSessions
  import RpcBaseConn

  class IceSession {
    const key: string
    const tid: Tid
    const priority: int
    var state: State
    var nominated: bool
    var closeEvents: nat
    /** The peer that listens to this session's 'close', once it is the active session. */
    var listener: Ice?

    ghost predicate Counted()
      reads this
    {
      closeEvents == if state == Closed then 1 else 0
    }

    ghost function View(): Session
      reads this
    {
      Session(key, priority, state, nominated)
    }

    constructor (key: string, tid: Tid, priority: int)
      ensures this.key == key && this.tid == tid && this.priority == priority
      ensures state == Init && !nominated && closeEvents == 0 && listener == null
    {
      this.key, this.tid, this.priority := key, tid, priority;
      state, nominated, closeEvents, listener := Init, false, 0, null;
    }

    method MarkChecking()
      requires state != Closed
      modifies this`state
      ensures state == if old(state) == Init then Checking else old(state)
    {
      if state == Init {
        state := Checking;
      }
    }

    method MarkReady() returns (changed: bool)
      requires state != Closed
      modifies this`state
      ensures changed <==> old(state) == Init || old(state) == Checking
      ensures state == if changed then Ready else old(state)
    {
      changed := state == Init || state == Checking;
      if changed {
        state := Ready;
      }
    }

    method MarkActivating()
      requires state != Closed && state != Activating && state != Active
      modifies this`state, this`nominated
      ensures state == Activating && nominated
    {
      state := Activating;
      nominated := true;
    }

    method MarkActive()
      requires state != Closed
      modifies this`state
      ensures state == Active
    {
      state := Active;
    }

    /** Close this session of `ice`; the active one takes the whole peer with it. */
    method Close(ghost ice: Ice)
      requires ice.Linked() && ice.Tracked(this)
      modifies ice`closed, ice`closeEvents, ice.byTid.Values`state, ice.byTid.Values`closeEvents, ice.owner.base
      ensures ice.Linked() && state == Closed
      ensures ice.closed == (old(ice.closed) || (old(state) != Closed && listener != null))
      ensures forall s :: s in ice.byTid.Values && s != this ==>
        s.state == if ice.closed == old(ice.closed) then old(s.state) else Closed
      ensures ice.owner.base.View()
           == if ice.closed == old(ice.closed) then old(ice.owner.base.View())
              else RpcBaseConn.CloseConn(old(ice.owner.base.View()))
      ensures old(ice.Settled()) ==> ice.Settled()
      decreases ice.OpenEnds(), ice.OpenSessions(), 1
    {
      if state == Closed {
        return;
      }
      ghost var before := ice.OpenSessions();
      state := Closed;
      closeEvents := closeEvents + 1;
      assert ice.OpenSessions() == before - {this};
      if listener != null {
        listener.Close();
      }
    }
  }

  ghost function TidOf(s: IceSession?): Option<Tid> {
    if s == null then None else Some(s.tid)
  }

  class Ice {
    const controlling: bool
    const local: Credentials
    var peer: Option<Credentials>
    var closed: bool
    var closeEvents: nat
    var byTid: map<Tid, IceSession>
    var byKey: map<string, IceSession>
    var activating: IceSession?
    var active: IceSession?
    /** The connection that listens to this peer's 'close'. */
    var owner: RpcN2NConnection?

    ghost predicate Tracked(s: IceSession)
      reads this
    {
      s.tid in byTid && byTid[s.tid] == s
    }

    ghost predicate SessionLinked(t: Tid)
      requires t in byTid
      reads this, byTid.Values
    {
      var s := byTid[t];
      s.tid == t && s.Counted() && s.listener == if s == active then this else null
    }

    /** How the objects hang together; this also holds between the listeners of one close. */
    ghost predicate Linked()
      reads this, byTid.Values
    {
      && owner != null && owner.ice == this
      && (forall t :: t in byTid ==> SessionLinked(t))
      && (forall k :: k in byKey ==> Tracked(byKey[k]))
      && (activating != null ==> Tracked(activating))
      && (active != null ==> Tracked(active))
      && closeEvents == if closed then 1 else 0
    }

    ghost function View(): IceSessions.Ice
      reads this, byTid.Values
    {
      IceSessions.Ice(controlling, local, peer, closed,
                      map t | t in byTid :: byTid[t].View(), map k | k in byKey :: byKey[k].tid,
                      TidOf(activating), TidOf(active))
    }

    /** How many of the peer and its connection are still open. */
    ghost function OpenEnds(): nat
      requires owner != null
      reads this, owner.base
    {
      (if closed then 0 else 1) + (if owner.base.state == RpcBaseConn.Closed then 0 else 1)
    }

    ghost function OpenSessions(): set<IceSession>
      reads this, byTid.Values
    {
      set s | s in byTid.Values && s.state != Closed
    }

    constructor (controlling: bool, local: Credentials)
      ensures owner == null && byTid == map[] && byKey == map[]
      ensures View() == IceSessions.Ice(controlling, local, None, false, map[], map[], None, None)
      ensures closeEvents == 0 && active == null && activating == null
    {
      this.controlling, this.local := controlling, local;
      peer, closed, closeEvents, byTid, byKey, activating, active, owner :=
        None, false, 0, map[], map[], null, null, null;
    }

    /** Close the peer: its connection first, through the 'close' listener, then all its sessions. */
    method Close()
      requires Linked()
      modifies this`closed, this`closeEvents, byTid.Values`state, byTid.Values`closeEvents, owner.base
      ensures Linked() && closed && View() == CloseIce(old(View()))
      ensures forall s :: s in byTid.Values ==> s.state == if old(closed) then old(s.state) else Closed
      ensures owner.base.View()
           == if old(closed) then old(owner.base.View()) else RpcBaseConn.CloseConn(old(owner.base.View()))
      ensures old(Settled()) ==> Settled()
      decreases OpenEnds(), OpenSessions(), 0
    {
      if !closed {
        closed := true;
        closeEvents := closeEvents + 1;
        owner.Close();
        CloseSessions();
      }
      ViewAfterClose();
    }

    method CloseSessions()
      requires Linked() && closed
      modifies this`closed, this`closeEvents, byTid.Values`state, byTid.Values`closeEvents, owner.base
      ensures Linked() && closed
      ensures forall s :: s in byTid.Values ==> s.state == Closed
      ensures owner.base.View() == old(owner.base.View())
      decreases OpenEnds(), OpenSessions(), 2
    {
      var todo := byTid.Keys;
      while todo != {}
        invariant Linked() && closed && todo <= byTid.Keys
        invariant forall t :: t in byTid && t !in todo ==> byTid[t].state == Closed
        invariant owner.base.View() == old(owner.base.View())
        invariant OpenSessions() <= old(OpenSessions())
        decreases todo
      {
        var t :| t in todo;
        byTid[t].Close(this);
        todo := todo - {t};
      }
    }

    /** Between two steps the peer is closed exactly when its connection is. */
    ghost predicate Settled()
      requires owner != null
      reads this, owner.base
    {
      closed <==> owner.base.state == RpcBaseConn.Closed
    }

    /** Seen as values, closing is CloseIce. */
    twostate lemma ViewAfterClose()
      requires old(Linked()) && Linked()
      requires closed && byTid == old(byTid) && byKey == old(byKey) && peer == old(peer)
      requires activating == old(activating) && active == old(active)
      requires forall s :: s in byTid.Values ==> s.nominated == old(s.nominated)
      requires forall s :: s in byTid.Values ==> s.state == if old(closed) then old(s.state) else Closed
      ensures View() == CloseIce(old(View()))
    {
      assert View().byTid == CloseIce(old(View())).byTid;
    }

    /** Seen as values, changing one session changes its entry of the table. */
    twostate lemma ViewAfterChange(s: IceSession)
      requires old(Linked()) && old(Tracked(s))
      requires byTid == old(byTid) && byKey == old(byKey) && peer == old(peer) && closed == old(closed)
      requires forall r :: r in byTid.Values && r != s ==> r.View() == old(r.View())
      ensures View() == old(View()).(byTid := old(View()).byTid[s.tid := s.View()],
                                     activating := TidOf(activating), active := TidOf(active))
    {
      assert View().byTid == old(View()).byTid[s.tid := s.View()];
    }

    /** A session new to both maps. */
    twostate predicate Inserted(key: string, new s: IceSession)
      reads this, s, byTid.Values
    {
      && s.tid !in old(byTid) && byTid == old(byTid)[s.tid := s] && byKey == old(byKey)[key := s]
      && fresh(s) && s.key == key && s.Counted() && s.listener == null
      && peer == old(peer) && closed == old(closed) && closeEvents == old(closeEvents) && owner == old(owner)
      && activating == old(activating) && active == old(active)
      && forall t :: t in old(byTid) ==> t in byTid && byTid[t] == old(byTid[t]) && unchanged(byTid[t])
    }

    twostate lemma LinkedAfterInsert(key: string, new s: IceSession)
      requires old(Linked()) && Inserted(key, s) && owner.ice == this
      ensures Linked() && byTid.Values == old(byTid.Values) + {s}
    {
      forall t | t in byTid ensures SessionLinked(t) {
        if t != s.tid {
          assert old(SessionLinked(t));
        }
      }
      forall r | r in old(byTid.Values) ensures r in byTid.Values {
        assert old(SessionLinked(r.tid));
        assert r.tid in byTid && byTid[r.tid] == r;
      }
      assert byTid[s.tid] == s;
      forall k | k in byKey ensures Tracked(byKey[k]) {
        if k != key {
          assert old(Tracked(byKey[k]));
        }
      }
    }

    twostate lemma TidsAfterInsert(key: string, new s: IceSession)
      requires old(Linked()) && Inserted(key, s)
      ensures View().byTid == old(View()).byTid[s.tid := s.View()]
    {
      forall t | t in old(byTid) ensures View().byTid[t] == old(View()).byTid[t] {
        assert byTid[t] == old(byTid[t]) && unchanged(byTid[t]);
      }
    }

    twostate lemma KeysAfterInsert(key: string, new s: IceSession)
      requires old(Linked()) && Inserted(key, s)
      ensures View().byKey == old(View()).byKey[key := s.tid]
    {
    }

    twostate lemma ViewAfterInsert(key: string, new s: IceSession)
      requires old(Linked()) && Inserted(key, s)
      ensures View() == NewSession(old(View()), key, s.priority, s.state, s.tid).(
                          byTid := old(View()).byTid[s.tid := s.View()])
    {
      TidsAfterInsert(key, s);
      KeysAfterInsert(key, s);
    }

    method AddSessionIfNotExists(key: string, priority: int, admitted: bool, newTid: Tid)
      returns (s: IceSession?)
      requires Linked() && newTid !in byTid
      modifies this`byTid, this`byKey
      ensures Linked() && fresh(byTid.Values - old(byTid.Values)) && old(byTid.Values) <= byTid.Values
      ensures (View(), TidOf(s)) == AddSession(old(View()), key, priority, admitted, newTid)
      ensures s != null ==> Tracked(s)
    {
      if key in byKey {
        s := byKey[key];
        if s.state != Closed {
          return;
        }
      }
      if !admitted {
        return null;
      }
      s := new IceSession(key, newTid, priority);
      byTid := byTid[newTid := s];
      byKey := byKey[key := s];
      LinkedAfterInsert(key, s);
      ViewAfterInsert(key, s);
    }

    /** Start checking a pair of candidates; an existing session that left Init is left alone. */
    method StartChecking(key: string, priority: int, admitted: bool, newTid: Tid)
      requires Linked() && newTid !in byTid
      modifies this`byTid, this`byKey, byTid.Values`state
      ensures Linked() && View() == CheckConnectivity(old(View()), key, priority, admitted, newTid)
    {
      CheckIsAddThenMark(View(), key, priority, admitted, newTid);
      var s := AddSessionIfNotExists(key, priority, admitted, newTid);
      if s != null {
        MarkSessionChecking(s);
      }
    }

    method MarkSessionChecking(s: IceSession)
      requires Linked() && Tracked(s) && s.state != Closed
      modifies s`state
      ensures Linked() && View() == MarkChecking(old(View()), s.tid)
    {
      s.MarkChecking();
      ViewAfterChange(s);
    }

    /** `best` beats every ready session among `done`, and `highest` is their highest open priority. */
    ghost predicate Chosen(done: set<Tid>, best: IceSession?, highest: Option<int>)
      reads this, byTid.Values
      requires done <= byTid.Keys
    {
      && (best == null ==> forall t :: t in done ==> byTid[t].state != Ready)
      && (best != null ==> Tracked(best) && best.tid in done && best.state == Ready)
      && (best != null ==> forall t :: t in done && byTid[t].state == Ready ==> !Below(best.View(), byTid[t].View()))
      && (forall t :: t in done && byTid[t].state != Closed ==> highest.Some? && byTid[t].priority <= highest.value)
      && (highest.Some? ==> exists t :: t in done && byTid[t].state != Closed && byTid[t].priority == highest.value)
    }

    /** Looking at one more session keeps the choice right. */
    lemma ChosenNext(done: set<Tid>, best: IceSession?, highest: Option<int>, t: Tid,
                     best': IceSession?, highest': Option<int>)
      requires Linked() && t in byTid && done <= byTid.Keys && Chosen(done, best, highest)
      requires var s := byTid[t];
        && highest' == (if s.state != Closed && (highest.None? || s.priority > highest.value)
             then Some(s.priority) else highest)
        && best' == (if s.state == Ready && (best == null || Below(best.View(), s.View())) then s else best)
      ensures Chosen(done + {t}, best', highest')
    {
      var s := byTid[t];
      assert SessionLinked(t);
      KeyLessTotal(s.key, s.key);
      if s.state == Ready && best != null && Below(best.View(), s.View()) {
        forall u | u in done && byTid[u].state == Ready ensures !Below(s.View(), byTid[u].View()) {
          var r := byTid[u];
          if best.priority == s.priority == r.priority && KeyLess(s.key, r.key) {
            KeyLessTransitive(best.key, s.key, r.key);
          }
        }
      }
      if highest' == highest && highest.Some? {
        var u :| u in done && byTid[u].state != Closed && byTid[u].priority == highest.value;
        assert u in done + {t};
      } else if highest'.Some? {
        assert t in done + {t} && byTid[t].priority == highest'.value;
      }
    }

    method SearchBest() returns (best: IceSession?, highest: Option<int>)
      requires Linked()
      ensures Chosen(byTid.Keys, best, highest)
    {
      best, highest := null, None;
      var todo := byTid.Keys;
      while todo != {}
        invariant todo <= byTid.Keys && Chosen(byTid.Keys - todo, best, highest)
        decreases todo
      {
        var t :| t in todo;
        ghost var done, best0, highest0 := byTid.Keys - todo, best, highest;
        todo := todo - {t};
        assert byTid.Keys - todo == done + {t};
        var s := byTid[t];
        if s.state != Closed {
          if highest.None? || s.priority > highest.value {
            highest := Some(s.priority);
          }
          if s.state == Ready {
            if best == null {
              best := s;
            } else if s.priority == best.priority {
              if KeyLess(best.key, s.key) {
                best := s;
              }
            } else if s.priority > best.priority {
              best := s;
            }
          }
        }
        ChosenNext(done, best0, highest0, t, best, highest);
      }
      assert byTid.Keys - todo == byTid.Keys;
    }

    method ActivateSession(s: IceSession) returns (sent: Option<Tid>)
      requires Linked() && Tracked(s) && s.state == Ready
      modifies this`activating, s`state, s`nominated
      ensures Linked() && (View(), sent) == Activate(old(View()), s.tid)
    {
      if closed || activating != null {
        return None;
      }
      activating := s;
      s.MarkActivating();
      ViewAfterChange(s);
      sent := Some(s.tid);
    }

    /** The search finds the best ready session, if there is any. */
    lemma ChosenIsReady(best: IceSession?, highest: Option<int>)
      requires Linked() && KeysDistinct(View().byTid) && Chosen(byTid.Keys, best, highest)
      ensures BestReady(View().byTid) == TidOf(best)
    {
      var m := View().byTid;
      assert forall t :: t in byTid ==> m[t] == byTid[t].View();
      if best != null {
        assert IsBest(m, best.tid);
        BestIsUnique(m, best.tid);
      }
    }

    /** And whether an open session ranks above it. */
    lemma HighestIsHighest(best: IceSession, highest: Option<int>)
      requires Linked() && Chosen(byTid.Keys, best, highest)
      ensures highest.Some? && (highest.value <= best.priority <==> NoOpenAbove(View().byTid, best.priority))
    {
      var m := View().byTid;
      assert forall t :: t in byTid ==> m[t] == byTid[t].View();
      var t :| t in byTid && byTid[t].state != Closed && byTid[t].priority == highest.value;
      assert m[t].priority == highest.value;
    }

    /** The session the search chose is the best one, so activating it is what the peer should do. */
    lemma ChosenIsBest(best: IceSession?, highest: Option<int>, force: bool, pick: IceSession?)
      requires Linked() && KeysDistinct(View().byTid) && Chosen(byTid.Keys, best, highest) && !closed && controlling
      requires pick == if best != null && (force || (highest.Some? && highest.value <= best.priority))
           then best else null
      ensures pick != null ==> Tracked(pick) && pick.state == Ready
      ensures ToActivate(View(), force) == TidOf(pick)
    {
      ChosenIsReady(best, highest);
      if best != null {
        HighestIsHighest(best, highest);
        assert View().byTid[best.tid].priority == best.priority;
      }
    }

    /** The ready session to activate now, if there is one. */
    method BestSession(force: bool) returns (pick: IceSession?)
      requires Linked() && KeysDistinct(View().byTid) && !closed && controlling
      ensures pick != null ==> Tracked(pick) && pick.state == Ready
      ensures ToActivate(View(), force) == TidOf(pick)
    {
      var best, highest := SearchBest();
      pick := null;
      if best != null {
        if force || (highest.Some? && highest.value <= best.priority) {
          pick := best;
        }
      }
      ChosenIsBest(best, highest, force, pick);
    }

    /** Whatever the order of the search, the best ready session is the one activated. */
    method FindSessionToActivate(force: bool) returns (sent: Option<Tid>)
      requires Linked() && KeysDistinct(View().byTid)
      modifies this`activating, byTid.Values`state, byTid.Values`nominated
      ensures Linked() && (View(), sent) == IceSessions.FindSessionToActivate(old(View()), force)
      ensures forall s :: s in byTid.Values ==> s.state == old(s.state) || s.state == Activating
    {
      if closed || !controlling {
        return None;
      }
      var best := BestSession(force);
      assert View() == old(View());
      sent := None;
      if best != null {
        sent := ActivateSession(best);
      }
    }

    /** Seen as values, making `s` the only open session is Complete. */
    twostate lemma ViewAfterComplete(s: IceSession)
      requires old(Linked()) && old(Tracked(s)) && !old(closed) && old(active) == null
      requires byTid == old(byTid) && byKey == old(byKey) && peer == old(peer) && closed == old(closed)
      requires activating == old(activating) && active == s && s.state == Active
      requires forall r :: r in byTid.Values ==> r.nominated == old(r.nominated) && (r != s ==> r.state == Closed)
      ensures View() == Complete(old(View()), s.tid)
    {
      assert View().byTid == Complete(old(View()), s.tid).byTid;
    }

    method ActivateSessionComplete(s: IceSession)
      requires Linked() && Tracked(s) && s.state != Closed
      modifies this`active, this`closed, this`closeEvents, byTid.Values`state, byTid.Values`closeEvents,
               byTid.Values`listener, owner.base
      ensures Linked() && View() == Complete(old(View()), s.tid)
      ensures closed == old(closed) && owner.base.View() == old(owner.base.View())
    {
      if closed || active != null {
        return;
      }
      active := s;
      s.MarkActive();
      s.listener := this;
      CloseOthers(s);
      ViewAfterComplete(s);
    }

    method CloseOthers(s: IceSession)
      requires Linked() && active == s && !closed
      modifies this`closed, this`closeEvents, byTid.Values`state, byTid.Values`closeEvents, owner.base
      ensures Linked() && !closed && s.state == old(s.state)
      ensures forall r :: r in byTid.Values && r != s ==> r.state == Closed
      ensures closed == old(closed) && owner.base.View() == old(owner.base.View())
    {
      var todo := byTid.Keys;
      while todo != {}
        invariant Linked() && !closed && todo <= byTid.Keys && s.state == old(s.state)
        invariant forall t :: t in byTid && t !in todo && byTid[t] != s ==> byTid[t].state == Closed
        invariant owner.base.View() == old(owner.base.View())
        decreases todo
      {
        var t :| t in todo;
        if byTid[t] != s {
          assert SessionLinked(t) && byTid[t].listener == null;
          byTid[t].Close(this);
          assert byTid[t].state == Closed;
        }
        todo := todo - {t};
      }
    }

    /** Read the credentials and the role from a packet's attributes. */
    method JudgePacket(m: AttrsMap) returns (v: Verdict)
      requires Linked()
      ensures v == Judge(View(), m)
    {
      if !CheckCredentials(local, if peer.Some? then Some(peer.value.ufrag) else None, m.username, m.password) {
        return BadCredentials;
      }
      if m.address.None? {
        return BadCredentials;
      }
      v := if RoleConflict(m, controlling) then BadRole else Accepted;
    }

    /** Mark a session of this peer ready. */
    method MarkSessionReady(s: IceSession) returns (changed: bool)
      requires Linked() && Tracked(s) && s.state != Closed
      modifies s`state
      ensures Linked() && (View(), changed) == MarkReady(old(View()), s.tid)
      ensures s.state != Closed
    {
      changed := s.MarkReady();
      ViewAfterChange(s);
    }

    /** Search after a session got ready, then make the nominated session active. */
    method AdvanceSession(changed: bool, s: IceSession, nominate: bool) returns (sent: Option<Tid>)
      requires Linked() && KeysDistinct(View().byTid) && Tracked(s) && s.state != Closed
      modifies this`activating, this`active, this`closed, this`closeEvents, byTid.Values, owner.base
      ensures Linked() && (View(), sent) == Advance(old(View()), changed, s.tid, nominate)
      ensures closed == old(closed) && owner.base.View() == old(owner.base.View())
    {
      sent := None;
      if changed {
        sent := FindSessionToActivate(false);
      }
      assert s.state != Closed && owner.base.View() == old(owner.base.View());
      if nominate {
        ActivateSessionComplete(s);
      }
    }

    method AnswerSession(s: IceSession, use: bool) returns (sent: Option<Tid>)
      requires Linked() && KeysDistinct(View().byTid) && Tracked(s) && s.state != Closed
      modifies this`activating, this`active, this`closed, this`closeEvents, byTid.Values, owner.base
      ensures Linked() && (View(), sent) == ReadySession(old(View()), s.tid, use)
      ensures closed == old(closed) && owner.base.View() == old(owner.base.View())
    {
      MovedKeysDistinct(View(), s.tid, Ready);
      var changed := MarkSessionReady(s);
      sent := AdvanceSession(changed, s, use);
    }

    /** Answer a request, on its session when it has one. */
    method Answer(s: IceSession?, use: bool) returns (r: Reaction, sent: Option<Tid>)
      requires Linked() && KeysDistinct(View().byTid) && !closed && (s != null ==> Tracked(s))
      modifies this`activating, this`active, this`closed, this`closeEvents, byTid.Values, owner.base
      ensures Linked() && Outcome(View(), TidOf(s), r, sent) == AnswerOn(old(View()), TidOf(s), use)
      ensures closed == old(closed) && owner.base.View() == old(owner.base.View())
    {
      r, sent := Replied(use), None;
      if s != null {
        if s.state == Closed {
          r := Threw;
        } else {
          sent := AnswerSession(s, use);
        }
      }
    }

    /** The session a request is for: the one given, or the one its addresses lead to. */
    method RequestSession(given: IceSession?, key: string, priority: int, admitted: bool, newTid: Tid)
      returns (s: IceSession?)
      requires Linked() && newTid !in byTid && (given != null ==> Tracked(given))
      requires KeysDistinct(View().byTid) && KeysDistinct(AddSession(View(), key, priority, admitted, newTid).0.byTid)
      modifies this`byTid, this`byKey
      ensures Linked() && KeysDistinct(View().byTid) && (s != null ==> Tracked(s))
      ensures fresh(byTid.Values - old(byTid.Values))
      ensures (View(), TidOf(s))
           == if given != null then (old(View()), TidOf(given))
              else AddSession(old(View()), key, priority, admitted, newTid)
    {
      s := given;
      if s == null {
        s := AddSessionIfNotExists(key, priority, admitted, newTid);
      }
    }

    /** A packet of an open peer that passed its checks. */
    method AnswerRequest(use: bool, key: string, priority: int, admitted: bool, newTid: Tid, given: IceSession?)
      returns (s: IceSession?, r: Reaction, sent: Option<Tid>)
      requires Linked() && !closed && newTid !in byTid && (given != null ==> Tracked(given))
      requires KeysDistinct(View().byTid) && KeysDistinct(AddSession(View(), key, priority, admitted, newTid).0.byTid)
      modifies this`byTid, this`byKey, this`activating, this`active, this`closed, this`closeEvents,
               byTid.Values, owner.base
      ensures Linked() && closed == old(closed) && owner.base.View() == old(owner.base.View())
      ensures Outcome(View(), TidOf(s), r, sent)
           == AnswerRequestOn(old(View()), use, key, priority, admitted, newTid, TidOf(given))
    {
      s := RequestSession(given, key, priority, admitted, newTid);
      assert closed == old(closed) && owner.base.View() == old(owner.base.View());
      r, sent := Answer(s, use);
    }

    /** `given` and `s` are the session tied to the packet's channel, before and after. */
    method HandleStunRequest(m: AttrsMap, key: string, priority: int, admitted: bool, newTid: Tid, given: IceSession?)
      returns (s: IceSession?, r: Reaction, sent: Option<Tid>)
      requires Linked() && KeysOwned(View()) && newTid !in byTid && (given != null ==> Tracked(given))
      modifies this`byTid, this`byKey, this`activating, this`active, this`closed, this`closeEvents,
               byTid.Values, owner.base
      ensures Linked() && closed == old(closed) && owner.base.View() == old(owner.base.View())
      ensures Outcome(View(), TidOf(s), r, sent)
           == HandleRequest(old(View()), m, key, priority, admitted, newTid, TidOf(given))
    {
      AddedKeysDistinct(View(), key, priority, admitted, newTid);
      var v := JudgePacket(m);
      if closed || !v.Accepted? {
        s, r, sent := given, BadPacket, None;
      } else if peer.None? {
        s, r, sent := given, Threw, None;
      } else {
        s, r, sent := AnswerRequest(Truthy(m.useCandidate), key, priority, admitted, newTid, given);
      }
    }

    method MarkBoth(s: IceSession, own: IceSession) returns (changed: bool)
      requires Linked() && Tracked(s) && s.state != Closed && Tracked(own) && own.state != Closed
      requires KeysDistinct(View().byTid)
      modifies s`state, own`state
      ensures Linked() && (View(), changed) == MarkBothReady(old(View()), s.tid, own.tid)
      ensures own.state != Closed && KeysDistinct(View().byTid)
    {
      BothKeysDistinct(View(), s.tid, own.tid);
      changed := MarkSessionReady(s);
      var second := MarkSessionReady(own);
      changed := changed || second;
    }

    /** Finish a response: its own session and its channel's become ready, then the search runs. */
    method FinishResponse(own: IceSession, s: IceSession, use: bool) returns (r: Reaction, sent: Option<Tid>)
      requires Linked() && KeysDistinct(View().byTid) && Tracked(own) && own.state != Closed && Tracked(s)
      modifies this`activating, this`active, this`closed, this`closeEvents, byTid.Values, owner.base
      ensures Linked() && closed == old(closed) && owner.base.View() == old(owner.base.View())
      ensures Outcome(View(), Some(s.tid), r, sent) == FinishOn(old(View()), own.tid, use, s.tid)
    {
      r, sent := Threw, None;
      if s.state != Closed {
        var changed := MarkBoth(s, own);
        sent := AdvanceSession(changed, own, use);
        r := Handled;
      }
    }

    /** Seen as values, closing the active session closes the peer. */
    twostate lemma ViewAfterActiveClose(s: IceSession)
      requires old(Linked()) && old(Tracked(s)) && Linked()
      requires byTid == old(byTid) && byKey == old(byKey) && peer == old(peer)
      requires activating == old(activating) && active == old(active)
      requires closed && !old(closed) && old(s.state) != Closed && s == active
      requires forall r :: r in byTid.Values ==> r.nominated == old(r.nominated) && r.state == Closed
      ensures View() == IceSessions.CloseSession(old(View()), s.tid)
    {
      assert View().byTid == AllClosed(WithState(old(View()), s.tid, Closed).byTid);
    }

    /** A tracked session closes, for any reason. */
    method CloseSession(s: IceSession)
      requires Linked() && Tracked(s)
      modifies this`closed, this`closeEvents, byTid.Values`state, byTid.Values`closeEvents, owner.base
      ensures Linked() && (old(Settled()) ==> Settled())
      ensures View() == IceSessions.CloseSession(old(View()), s.tid)
      ensures owner.base.View()
           == if closed == old(closed) then old(owner.base.View()) else RpcBaseConn.CloseConn(old(owner.base.View()))
    {
      s.Close(this);
      if closed == old(closed) {
        ViewAfterChange(s);
        ClosesOnlyItself(old(View()), s.tid);
      } else {
        ViewAfterActiveClose(s);
      }
    }

    /** An accepted or rejected response for a tracked session that is open. */
    method TakeStunResponse(v: Verdict, own: IceSession, use: bool, given: IceSession?)
      returns (s: IceSession?, r: Reaction, sent: Option<Tid>)
      requires Linked() && KeysDistinct(View().byTid) && (given != null ==> Tracked(given))
      requires !closed && Tracked(own) && own.state != Closed
      modifies this`activating, this`active, this`closed, this`closeEvents, byTid.Values, owner.base
      ensures Linked() && (old(Settled()) ==> Settled())
      ensures Outcome(View(), TidOf(s), r, sent) == TakeResponse(old(View()), own.tid, v, use, TidOf(given))
    {
      s, r, sent := given, BadPacket, None;
      match v
      case BadCredentials =>
        CloseSession(own);
      case BadRole =>
      case Accepted =>
        s := if given != null then given else own;
        r, sent := FinishResponse(own, s, use);
    }

    /** A response, known by its transaction id. */
    method HandleStunResponse(tid: Tid, m: AttrsMap, given: IceSession?)
      returns (s: IceSession?, r: Reaction, sent: Option<Tid>)
      requires Linked() && KeysDistinct(View().byTid) && (given != null ==> Tracked(given))
      modifies this`activating, this`active, this`closed, this`closeEvents, byTid.Values, owner.base
      ensures Linked() && (old(Settled()) ==> Settled())
      ensures Outcome(View(), TidOf(s), r, sent) == HandleResponse(old(View()), tid, m, TidOf(given))
    {
      if closed || tid !in byTid || byTid[tid].state == Closed {
        s, r, sent := given, BadPacket, None;
      } else {
        var v := JudgePacket(m);
        assert Linked() && View() == old(View());
        s, r, sent := TakeStunResponse(v, byTid[tid], Truthy(m.useCandidate), given);
      }
    }
  }

  class RpcN2NConnection {
    const base: RpcBaseConn.RpcBaseConnection
    const ice: Ice

    constructor (href: string, stamp: string, controlling: bool, local: Credentials)
      ensures fresh(ice) && fresh(base) && ice.Linked() && ice.owner == this
      ensures ice.View() == IceSessions.Ice(controlling, local, None, false, map[], map[], None, None)
      ensures base.View() == RpcBaseConn.NEW_CONN
    {
      var i := new Ice(controlling, local);
      base := new RpcBaseConn.RpcBaseConnection(href, stamp);
      ice := i;
      new;
      i.owner := this;
    }

    /** Close the connection, which closes its peer and with it all sessions. */
    method Close()
      requires ice.Linked() && ice.owner == this
      modifies base, ice`closed, ice`closeEvents, ice.byTid.Values`state, ice.byTid.Values`closeEvents
      ensures ice.Linked() && base.View() == RpcBaseConn.CloseConn(old(base.View()))
      ensures ice.closed == (old(ice.closed) || old(base.state) != RpcBaseConn.Closed)
      ensures forall s :: s in ice.byTid.Values ==>
        s.state == if ice.closed == old(ice.closed) then old(s.state) else Closed
      ensures old(ice.Settled()) ==> ice.Settled()
      decreases ice.OpenEnds(), ice.OpenSessions(), 0
    {
      var closing := base.Close();
      if closing {
        ice.Close();
      }
    }
  }
}
