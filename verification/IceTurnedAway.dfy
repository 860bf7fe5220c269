/** What can happen when a peer turns the candidates of a nomination away (src/rpc/ice.js): it answers
    without a session, and the other peer goes active alone. */
module IceTurnedAway {
  import opened Wrappers
  import opened IceCredentials
  import opened IceSessions
  import opened IceAgreement

  ghost predicate Leads(s: Sys, n: Sys) {
    exists act :: Possible(s, act) && n == Do(s, act)
  }

  ghost predicate LeadsAt(run: seq<Sys>, k: nat) {
    k + 1 < |run| ==> Leads(run[k], run[k + 1])
  }

  const SEEN: Endpoint := Endpoint(0, [0, 0, 0, 0])

  /** Peer b knows a, and has no session. */
  ghost predicate Idle(s: Sys) {
    && Honest(s) && s.a.peer.Some? && s.b.peer.Some?
    && !s.b.closed && s.b.byTid == map[] && s.b.byKey == map[] && s.b.active.None?
  }

  /** Peer a has this one session. */
  ghost predicate One(s: Sys, state: State, nominated: bool) {
    && Idle(s) && !s.a.closed && s.a.active.None?
    && s.a.byTid == map[0 := Session("k", 1, state, nominated)]
    && s.a.activating == (if nominated then Some(0) else None)
  }

  lemma PeersAccept(s: Sys, fromA: bool, use: bool)
    requires Honest(s) && SideOf(s, !fromA).peer.Some?
    ensures Judge(SideOf(s, !fromA), Attrs(s, fromA, use, SEEN)) == Accepted
  {
    var to, from := SideOf(s, !fromA).local, SideOf(s, fromA).local;
    ContinuingPasses(to, from.ufrag, Username(to.ufrag, from.ufrag));
  }

  /** Both peers are signalled, and a starts checking one pair of candidates. */
  lemma Begins(s: Sys) returns (run: seq<Sys>)
    requires InitialSys(s)
    ensures IsSysRun(run) && run[0] == s
    ensures One(run[|run| - 1], Checking, false) && run[|run| - 1].b.activating.None?
  {
    var act1 := Local(true, Signalled(s.b.local));
    assert Possible(s, act1);
    var s1 := Do(s, act1);
    var act2 := Local(false, Signalled(s.a.local));
    assert Possible(s1, act2);
    var s2 := Do(s1, act2);
    var act3 := Local(true, Check("k", 1, true, 0));
    assert Possible(s2, act3);
    var s3 := Do(s2, act3);
    run := [s, s1, s2, s3];
    assert May(s, act1) && May(s1, act2) && May(s2, act3);
    assert SysSteps(s, s1) && SysSteps(s1, s2) && SysSteps(s2, s3);
  }

  lemma RunLeads(run: seq<Sys>)
    requires IsSysRun(run)
    ensures forall k :: 0 <= k < |run| ==> LeadsAt(run, k)
  {
    forall k | 0 <= k < |run| ensures LeadsAt(run, k) {
      if k + 1 < |run| {
        assert SysSteps(run[k], run[k + 1]);
      }
    }
  }

  /** The session of a sends its packet, b answers it without a session, and the answer arrives at a. */
  function Requested(s: Sys, use: bool): Packet {
    Packet(true, true, 0, Attrs(s, true, use, SEEN), "k", None)
  }

  function Answered(s: Sys, use: bool): Packet {
    Packet(false, false, 0, Attrs(s, false, use, SEEN), "k", None)
  }

  lemma Sends(s: Sys, state: State, use: bool)
    requires One(s, state, use)
    ensures Leads(s, s.(sent := s.sent + {Requested(s, use)}))
  {
    var act := Send(true, 0, SEEN);
    assert Possible(s, act);
    assert Do(s, act) == s.(sent := s.sent + {Requested(s, use)});
  }

  lemma TurnsAway(s: Sys, state: State, use: bool)
    requires One(s, state, use) && Requested(s, use) in s.sent
    ensures Leads(s, s.(sent := s.sent + {Answered(s, use)}))
  {
    var act := Deliver(false, Requested(s, use), "q", 1, false, 0, None, SEEN);
    assert Possible(s, act);
    PeersAccept(s, true, use);
    assert React(s.b, EventOf(act)) == Outcome(s.b, None, Replied(use), None);
    assert Do(s, act) == s.(sent := s.sent + {Answered(s, use)});
  }

  lemma BecomesNominated(i: Ice)
    requires i.controlling && !i.closed && i.activating.None? && i.byTid == map[0 := Session("k", 1, Checking, false)]
    ensures
      var j := FinishOn(i, 0, false, 0).ice;
      && j == i.(byTid := map[0 := Session("k", 1, Activating, true)], activating := Some(0))
  {
    var ready := i.(byTid := map[0 := Session("k", 1, Ready, false)]);
    assert WithState(i, 0, Ready) == ready;
    assert MarkBothReady(i, 0, 0) == (ready, true);
    KeyLessTotal("k", "k");
    assert IsBest(ready.byTid, 0);
    BestIsUnique(ready.byTid, 0);
    assert Activate(ready, 0).0.byTid == map[0 := Session("k", 1, Activating, true)];
  }

  lemma FirstAnswer(s: Sys)
    requires One(s, Checking, false) && Answered(s, false) in s.sent
    ensures exists n :: Leads(s, n) && One(n, Activating, true) && n.sent == s.sent
  {
    var act := Deliver(true, Answered(s, false), "q", 1, false, 1, None, SEEN);
    assert Possible(s, act);
    PeersAccept(s, false, false);
    BecomesNominated(s.a);
    assert React(s.a, EventOf(act)) == FinishOn(s.a, 0, false, 0);
    assert Leads(s, Do(s, act)) && One(Do(s, act), Activating, true);
  }

  lemma SecondAnswer(s: Sys)
    requires One(s, Activating, true) && Answered(s, true) in s.sent
    ensures exists n :: Leads(s, n) && n.a.active.Some? && n.b.active.None?
  {
    var act := Deliver(true, Answered(s, true), "q", 1, false, 1, None, SEEN);
    assert Possible(s, act);
    PeersAccept(s, false, true);
    assert React(s.a, EventOf(act)) == FinishOn(s.a, 0, true, 0);
    assert FinishOn(s.a, 0, true, 0).ice.active == Some(0);
    assert Leads(s, Do(s, act));
  }

  lemma Extend(run: seq<Sys>, n: Sys)
    requires run != [] && (forall k :: 0 <= k < |run| ==> LeadsAt(run, k)) && Leads(run[|run| - 1], n)
    ensures forall k :: 0 <= k < |run + [n]| ==> LeadsAt(run + [n], k)
  {
    forall k | 0 <= k < |run + [n]| ensures LeadsAt(run + [n], k) {
      if k < |run| - 1 {
        assert LeadsAt(run, k);
      }
    }
  }

  /** From any start of two honest peers, turning the nomination away leads to a state where the
      controlling peer has an active session and the controlled peer has none. */
  lemma DisagreementIsPossible(s: Sys) returns (run: seq<Sys>)
    requires InitialSys(s)
    ensures run != [] && run[0] == s && forall k :: 0 <= k < |run| ==> LeadsAt(run, k)
    ensures run[|run| - 1].a.active.Some? && run[|run| - 1].b.active.None?
  {
    run := Begins(s);
    RunLeads(run);
    run := RoundTrip(run, Checking, false);
    var n := run[|run| - 1];
    FirstAnswer(n);
    var m :| Leads(n, m) && One(m, Activating, true) && m.sent == n.sent;
    Extend(run, m);
    run := run + [m];
    run := RoundTrip(run, Activating, true);
    var o := run[|run| - 1];
    SecondAnswer(o);
    var p :| Leads(o, p) && p.a.active.Some? && p.b.active.None?;
    Extend(run, p);
    run := run + [p];
  }

  lemma RoundTrip(run: seq<Sys>, state: State, use: bool) returns (more: seq<Sys>)
    requires run != [] && (forall k :: 0 <= k < |run| ==> LeadsAt(run, k)) && One(run[|run| - 1], state, use)
    ensures more != [] && more[0] == run[0] && forall k :: 0 <= k < |more| ==> LeadsAt(more, k)
    ensures One(more[|more| - 1], state, use) && Answered(more[|more| - 1], use) in more[|more| - 1].sent
  {
    var s := run[|run| - 1];
    var asked := s.(sent := s.sent + {Requested(s, use)});
    Sends(s, state, use);
    Extend(run, asked);
    assert Requested(asked, use) == Requested(s, use);
    TurnsAway(asked, state, use);
    var answered := asked.(sent := asked.sent + {Answered(asked, use)});
    Extend(run + [asked], answered);
    assert Answered(answered, use) == Answered(asked, use);
    more := run + [asked] + [answered];
  }
}
