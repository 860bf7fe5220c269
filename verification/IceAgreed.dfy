/** The nomination handshake when nothing gets lost (src/rpc/ice.js): both peers end up active. */
module IceAgreed {
  import opened Wrappers
  import opened IceCredentials
  import opened IceSessions
  import opened IceRuns
  import opened IceAgreement
  import opened IceTurnedAway

  lemma Extended(run: seq<Sys>, act: Action) returns (more: seq<Sys>, s: Sys)
    requires IsSysRun(run) && May(run[|run| - 1], act)
    ensures IsSysRun(more) && more[0] == run[0] && more[|more| - 1] == s == Do(run[|run| - 1], act)
  {
    s := Do(run[|run| - 1], act);
    more := run + [s];
    forall k | 0 <= k < |more| - 1 ensures SysSteps(more[k], more[k + 1]) {
      if k < |run| - 1 {
        assert SysSteps(run[k], run[k + 1]);
      }
    }
  }

  /** Both peers know each other and are open; a has one session, and b the one that it is routed to, if any. */
  ghost predicate Paired(s: Sys, a: Session, b: Option<Session>) {
    && Honest(s) && s.a.peer.Some? && s.b.peer.Some? && !s.a.closed && !s.b.closed
    && a.key == "k" && s.a.byTid == map[0 := a]
    && s.a.activating == (if a.nominated then Some(0) else None)
    && s.a.active == (if a.state == Active then Some(0) else None)
    && match b
       case None => s.b.byTid == map[] && s.b.byKey == map[] && s.b.active == None
       case Some(t) =>
         && t.key == s.route("k") && s.b.byTid == map[0 := t] && s.b.byKey == map[t.key := 0]
         && s.b.active == (if t.state == Active then Some(0) else None)
  }

  /** The session of a in each phase of the handshake, and that of b. */
  function OfA(state: State, nominated: bool): Session { Session("k", 1, state, nominated) }

  function OfB(s: Sys, state: State): Option<Session> { Some(Session(s.route("k"), 1, state, false)) }

  const FIRST: Tid := 0

  lemma Sent(s: Sys, a: Session, b: Option<Session>)
    requires Paired(s, a, b)
    ensures
      var act := Send(true, FIRST, SEEN);
      && May(s, act) && Do(s, act) == s.(sent := s.sent + {Requested(s, a.nominated)})
      && Paired(Do(s, act), a, b) && Requested(Do(s, act), a.nominated) in Do(s, act).sent
  {
  }

  function Arrives(s: Sys, use: bool): Action {
    Deliver(false, Requested(s, use), s.route("k"), 1, true, if use then FIRST + 1 else FIRST, None, SEEN)
  }

  function Reply(s: Sys, use: bool): Packet {
    Packet(false, false, FIRST, Attrs(s, false, use, SEEN), "k", Some(FIRST))
  }

  function AnswerTo(s: Sys, use: bool): Action {
    Deliver(true, Reply(s, use), "", 1, false, FIRST + 1, None, SEEN)
  }

  /** The check arrives at b, which gets a session ready and answers. */
  lemma CheckArrives(s: Sys, a: Session)
    requires Paired(s, a, None) && Requested(s, false) in s.sent
    ensures
      var act := Arrives(s, false);
      && May(s, act) && Paired(Do(s, act), a, OfB(s, Ready))
      && Reply(Do(s, act), false) in Do(s, act).sent && Do(s, act).route == s.route
  {
    var act := Arrives(s, false);
    PeersAccept(s, true, false);
    var b := NewSession(s.b, s.route("k"), 1, Init, FIRST);
    assert MarkReady(b, FIRST).0.byTid == map[0 := OfB(s, Ready).value];
    assert React(s.b, EventOf(act)).ice == MarkReady(b, FIRST).0;
  }

  /** Its answer arrives at a, which nominates its session. */
  lemma AnswerArrives(s: Sys)
    requires Paired(s, OfA(Checking, false), OfB(s, Ready)) && Reply(s, false) in s.sent
    ensures
      var act := AnswerTo(s, false);
      && May(s, act) && Paired(Do(s, act), OfA(Activating, true), OfB(s, Ready)) && Do(s, act).route == s.route
  {
    var act := AnswerTo(s, false);
    PeersAccept(s, false, false);
    BecomesNominated(s.a);
    assert React(s.a, EventOf(act)) == FinishOn(s.a, 0, false, 0);
  }

  /** The nomination arrives at b, which makes its session active and answers. */
  lemma NominationArrives(s: Sys)
    requires Paired(s, OfA(Activating, true), OfB(s, Ready)) && Requested(s, true) in s.sent
    ensures
      var act := Arrives(s, true);
      && May(s, act) && Paired(Do(s, act), OfA(Activating, true), OfB(s, Active))
      && Reply(Do(s, act), true) in Do(s, act).sent && Do(s, act).route == s.route
  {
    var act := Arrives(s, true);
    PeersAccept(s, true, true);
    assert Complete(s.b, FIRST).byTid == map[0 := OfB(s, Active).value];
    assert React(s.b, EventOf(act)).ice == Complete(s.b, FIRST);
  }

  lemma LastAnswerArrives(s: Sys)
    requires Paired(s, OfA(Activating, true), OfB(s, Active)) && Reply(s, true) in s.sent
    ensures
      var act := AnswerTo(s, true);
      && May(s, act) && Paired(Do(s, act), OfA(Active, true), OfB(s, Active))
  {
    var act := AnswerTo(s, true);
    PeersAccept(s, false, true);
    assert React(s.a, EventOf(act)) == FinishOn(s.a, 0, true, 0);
    assert FinishOn(s.a, 0, true, 0).ice == Complete(s.a, 0);
    assert Complete(s.a, 0).byTid == map[0 := OfA(Active, true)];
  }

  /** From every start of two honest peers there is a run to a state where both are active. */
  lemma AgreementIsReached(s: Sys) returns (run: seq<Sys>)
    requires InitialSys(s)
    ensures IsSysRun(run) && run[0] == s
    ensures run[|run| - 1].a.active.Some? && run[|run| - 1].b.active.Some?
  {
    run := Begins(s);
    var t := run[|run| - 1];
    Sent(t, OfA(Checking, false), None);
    run, t := Extended(run, Send(true, FIRST, SEEN));
    CheckArrives(t, OfA(Checking, false));
    run, t := Extended(run, Arrives(t, false));
    AnswerArrives(t);
    run, t := Extended(run, AnswerTo(t, false));
    Sent(t, OfA(Activating, true), OfB(t, Ready));
    run, t := Extended(run, Send(true, FIRST, SEEN));
    NominationArrives(t);
    run, t := Extended(run, Arrives(t, true));
    LastAnswerArrives(t);
    run, t := Extended(run, AnswerTo(t, true));
  }
}
