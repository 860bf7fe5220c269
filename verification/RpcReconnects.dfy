/** The reconnects of the client: which connection waits, and for how long. */
module RpcReconnects {
  import opened Wrappers
  import Backoff
  import Conns = RpcBaseConn
  import opened RpcClient
  import opened RpcClientRuns

  // -------------------------------------------------------- one closing

  /** A connection that will be reconnected when it closes. */
  ghost predicate Reconnects(r: Rpc, c: ConnId) {
    && c in r.links && !Closed(r.links[c]) && r.links[c].accepted && !r.links[c].noReconnect
    && StartsWith(r.links[c].href, r.routerDefault)
  }

  ghost predicate Unarmed(r: Rpc, d: ConnId) {
    d in r.links ==> r.links[d].timer.None?
  }

  /** Getting a connection adds at most the one it gives, which is closed only while disconnected. */
  lemma GetAt(r: Rpc, href: string, d: ConnId)
    requires Inv(r)
    ensures
      var (s, x) := GetConnection(r, href);
      && (d in r.links ==> d in s.links && s.links[d] == r.links[d])
      && (d in s.links && d !in r.links ==> d == x && s.links[d].timer.None?)
      && (Closed(s.links[x]) <==> r.disconnected)
  {
    if href in r.pool {
      assert PoolOk(r, href);
    } else {
      assert r.(pool := r.pool - {href}).pool == r.pool;
      AddKeeps(r, href, false);
      assert LinkOk(AddConnection(r, href, false), r.nextConn);
    }
  }

  /** A reconnect after k others in a row leaves every connection but one as it is; the one it finds for
      the address, unless its timer runs already, waits exactly Wait(k). */
  lemma ReconnectAt(r: Rpc, href: string, k: nat, d: ConnId)
    requires Inv(r)
    ensures
      var s, x := Reconnect(r, href, Backoff.Carried(k), k), GetConnection(r, href).1;
      && x in s.links && (d in r.links ==> d in s.links)
      && (d in s.links && d == x && Unarmed(r, x) ==>
            && s.links[d].timer == Some(Backoff.Wait(k)) && s.links[d].failures == k + 1
            && (Closed(s.links[d]) <==> r.disconnected))
      && (d in s.links && !(d == x && Unarmed(r, x)) ==> d in r.links && s.links[d] == r.links[d])
  {
    GetAt(r, href, d);
    GetAt(r, href, GetConnection(r, href).1);
    Backoff.DelayIsWait(k);
  }

  lemma ShutAt(r: Rpc, c: ConnId, d: ConnId)
    requires Inv(r) && c in r.links && !Closed(r.links[c])
    ensures
      var t := Shut(r, c);
      && (d in t.links <==> d in r.links)
      && (d in r.links && d != c ==> t.links[d] == r.links[d])
      && t.links[c].timer.None? && t.links[c].failures == r.links[c].failures && Closed(t.links[c])
      && t.disconnected == r.disconnected
  {
    assert LinkOk(r, c);
  }

  /** The connection that a reconnect after the closing of `c` is about. */
  function Successor(r: Rpc, c: ConnId): ConnId
    requires c in r.links
  {
    GetConnection(Shut(r, c), r.links[c].href).1
  }

  /** What closing a connection does to each connection of the client. */
  lemma CloseAt(r: Rpc, c: ConnId, d: ConnId)
    requires Inv(r) && c in r.links
    ensures
      var s, x := CloseLink(r, c), Successor(r, c);
      && (d in r.links ==> d in s.links)
      && (d in s.links && Reconnects(r, c) && d == x && Unarmed(r, x) ==>
            && x != c
            && s.links[d].timer == Some(Backoff.Wait(r.links[c].failures))
            && s.links[d].failures == r.links[c].failures + 1
            && (Closed(s.links[d]) <==> r.disconnected))
      && (d in s.links && d != c && !(Reconnects(r, c) && d == x && Unarmed(r, x)) ==>
            d in r.links && s.links[d] == r.links[d])
      && (d == c && !Closed(r.links[c]) ==> s.links[c].timer.None? && s.links[c].failures == r.links[c].failures)
  {
    assert LinkOk(r, c);
    if !Closed(r.links[c]) {
      ShutAt(r, c, d);
      ShutKeeps(r, c);
      if Reconnects(r, c) {
        ReconnectAt(Shut(r, c), r.links[c].href, r.links[c].failures, d);
        SuccessorIsOther(r, c);
      }
    }
  }

  lemma SuccessorIsOther(r: Rpc, c: ConnId)
    requires Inv(r) && Reconnects(r, c)
    ensures Successor(r, c) != c
  {
    assert LinkOk(r, c);
    ShutKeeps(r, c);
    GetKeeps(Shut(r, c), r.links[c].href);
  }

  /** Whenever a reconnect follows a close, the connection then found for the address has its timer
      armed: one that had no timer waits exactly Wait(k) after k reconnects in a row, one that had keeps
      it. It is the pooled one, or a new one for addresses that are not pooled or while disconnected. */
  lemma ReconnectArms(r: Rpc, c: ConnId)
    requires Inv(r) && Reconnects(r, c)
    ensures
      var s, l, d := CloseLink(r, c), r.links[c], Successor(r, c);
      && d in s.links && d != c
      && (if d in r.links && r.links[d].timer.Some? then s.links[d] == r.links[d]
          else s.links[d].timer == Some(Backoff.Wait(l.failures)) && s.links[d].failures == l.failures + 1)
      && (if r.disconnected || Transient(l.href) then d == r.nextConn
          else l.href in s.pool && s.pool[l.href] == d)
      && (d !in r.links && !r.disconnected ==> Reconnects(s, d))
  {
    var l, t := r.links[c], Shut(r, c);
    assert LinkOk(r, c);
    ShutKeeps(r, c);
    GetKeeps(t, l.href);
    Backoff.DelayIsWait(l.failures);
    assert l.href in t.pool ==> PoolOk(t, l.href);
  }

  lemma ReconnectLeavesArmed(r: Rpc, href: string, failures: nat, d: ConnId)
    requires Inv(r) && d in r.links && r.links[d].timer.Some?
    ensures var s := Reconnect(r, href, Backoff.Carried(failures), failures);
            d in s.links && s.links[d] == r.links[d]
  {
    GetKeeps(r, href);
  }

  /** An armed timer is never armed again: closing other connections leaves it as it is. */
  lemma OneTimerEach(r: Rpc, c: ConnId, d: ConnId)
    requires Inv(r) && c in r.links && d in r.links && c != d && r.links[d].timer.Some?
    ensures d in CloseLink(r, c).links && CloseLink(r, c).links[d] == r.links[d]
  {
    assert LinkOk(r, c);
    if !Closed(r.links[c]) {
      ShutKeeps(r, c);
      ReconnectLeavesArmed(Shut(r, c), r.links[c].href, r.links[c].failures, d);
    }
  }

  // ------------------------------------------------- closed, yet waiting

  ghost predicate ClosedButArmed(r: Rpc, d: ConnId) {
    d in r.links && Closed(r.links[d]) && r.links[d].timer.Some?
  }

  /** While disconnected the successor is a new connection. */
  lemma NewSuccessor(r: Rpc, c: ConnId)
    requires Inv(r) && Reconnects(r, c) && r.disconnected
    ensures Successor(r, c) == r.nextConn && r.nextConn !in r.links && r.nextConn in CloseLink(r, c).links
  {
    assert LinkOk(r, c);
    ShutKeeps(r, c);
    AddKeeps(Shut(r, c), r.links[c].href, false);
    ReconnectAt(Shut(r, c), r.links[c].href, r.links[c].failures, r.nextConn);
  }

  /** Closing a connection leaves some closed connection waiting for a reconnect exactly if the client
      is disconnected and the connection is one that is reconnected. */
  lemma CloseArmsClosed(r: Rpc, c: ConnId)
    requires Inv(r) && c in r.links
    ensures (exists d :: ClosedButArmed(CloseLink(r, c), d) && !ClosedButArmed(r, d))
       <==> r.disconnected && Reconnects(r, c)
  {
    forall d | ClosedButArmed(CloseLink(r, c), d) && !ClosedButArmed(r, d)
      ensures r.disconnected && Reconnects(r, c)
    {
      CloseAt(r, c, d);
    }
    if r.disconnected && Reconnects(r, c) {
      NewSuccessor(r, c);
      CloseAt(r, c, r.nextConn);
      assert ClosedButArmed(CloseLink(r, c), r.nextConn);
    }
  }

  /** In every run, a closed connection that waits for a reconnect is one that was closed when it was
      created; one that was accepted never waits once it is closed. */
  lemma ClosedHasNoTimer(run: seq<Rpc>, k: nat, c: ConnId)
    requires IsRun(run) && k < |run| && c in run[k].links && Closed(run[k].links[c])
    ensures run[k].links[c].timer.Some? ==> !run[k].links[c].accepted
  {
    RunKeeps(run, k);
    assert LinkOk(run[k], c);
  }

  /** In every run, an armed timer is set to one of the waits, and the backoff of its connection is the
      one that follows that wait exactly if it carries any. */
  lemma ArmedWaits(run: seq<Rpc>, k: nat, c: ConnId)
    requires IsRun(run) && k < |run| && c in run[k].links && run[k].links[c].timer.Some?
    ensures
      var l := run[k].links[c];
      && (exists n: nat :: l.timer.value == Backoff.Wait(n))
      && (l.backoff == Backoff.Increased(l.timer.value) <==> l.backoff != 0.0)
      && (l.failures > 0 ==> l.timer.value == Backoff.Wait(l.failures - 1))
  {
    RunKeeps(run, k);
    var l := run[k].links[c];
    assert LinkOk(run[k], c);
    var n: nat :| l.timer.value == Backoff.Wait(n);
    Backoff.DelayIsWait(n);
    Backoff.WaitsGrowToMax(0, n + 1);
    if l.failures > 0 {
      Backoff.DelayIsWait(l.failures - 1);
      Backoff.WaitsGrowToMax(0, l.failures);
    }
  }

  /** A successful attempt resets what its connection carries, and its timer is armed afterwards exactly
      if it was before; no other timer changes either. */
  lemma SuccessLeavesTimers(r: Rpc, c: ConnId, d: ConnId)
    requires Enabled(r, ReconnectWorked(c))
    ensures
      var s := React(r, ReconnectWorked(c));
      && s.links[c].backoff == 0.0 && s.links[c].trying == r.links[c].trying - 1 && s.links[c].conn == r.links[c].conn
      && s.links.Keys == r.links.Keys && s.reqs == r.reqs && s.pool == r.pool
      && (d in r.links ==> s.links[d].timer == r.links[d].timer)
  {
  }

  // ---------------------------------------------------- along whole runs

  /** The timer of `d` was not running and is now. */
  ghost predicate Arms(r: Rpc, s: Rpc, d: ConnId) {
    Unarmed(r, d) && d in s.links && s.links[d].timer.Some?
  }

  ghost predicate Closes(r: Rpc, s: Rpc, c: ConnId) {
    c in r.links && !Closed(r.links[c]) && c in s.links && Closed(s.links[c])
  }

  /** No other connection than `c` closes, and what gets armed waits after the reconnects that led to `c`. */
  ghost predicate ArmsAfter(r: Rpc, s: Rpc, c: ConnId, d: ConnId) {
    && c in r.links && (forall b :: Closes(r, s, b) ==> b == c)
    && Arms(r, s, d) && s.links[d].timer == Some(Backoff.Wait(r.links[c].failures))
    && s.links[d].failures == r.links[c].failures + 1
  }

  /** `d` is not armed, and carries the count it had. */
  ghost predicate CalmAt(r: Rpc, s: Rpc, d: ConnId) {
    && !Arms(r, s, d)
    && (d in r.links ==> d in s.links && s.links[d].failures == r.links[d].failures)
  }

  ghost predicate Effect(r: Rpc, s: Rpc, d: ConnId) {
    CalmAt(r, s, d) || exists c :: ArmsAfter(r, s, c, d)
  }

  lemma CloseEffect(r: Rpc, c: ConnId, d: ConnId)
    requires Inv(r) && c in r.links
    ensures CalmAt(r, CloseLink(r, c), d) || ArmsAfter(r, CloseLink(r, c), c, d)
  {
    var s := CloseLink(r, c);
    CloseAt(r, c, d);
    if Reconnects(r, c) && d == Successor(r, c) && Unarmed(r, d) && d in s.links {
      forall b | Closes(r, s, b) ensures b == c {
        CloseAt(r, c, b);
      }
    }
  }

  // The events that close nothing arm nothing.

  lemma TimerCalm(r: Rpc, c: ConnId, d: ConnId)
    requires Inv(r) && c in r.links
    ensures CalmAt(r, TimerFires(r, c), d)
  {
    ClearedKeeps(r, c);
    ClearedCalm(r, WithLink(r, c, r.links[c].(timer := None)), c, d);
  }

  lemma ClearedCalm(r: Rpc, s: Rpc, c: ConnId, d: ConnId)
    requires c in r.links && s == WithLink(r, c, r.links[c].(timer := None)) && Inv(s)
    ensures CalmAt(r, TimerFires(r, c), d)
  {
    GetAt(s, r.links[c].href, d);
  }

  lemma StartCalm(r: Rpc, q: ReqKey, href: string, d: ConnId)
    requires Inv(r)
    ensures CalmAt(r, Start(r, q, href), d)
  {
    GetAt(r, href, d);
  }

  lemma DisconnectCalm(r: Rpc, d: ConnId)
    ensures CalmAt(r, DisconnectAll(r), d)
  {
  }

  lemma SameLinksCalm(r: Rpc, s: Rpc, d: ConnId)
    requires d in r.links <==> d in s.links
    requires d in r.links ==> s.links[d].timer == r.links[d].timer && s.links[d].failures == r.links[d].failures
    ensures CalmAt(r, s, d)
  {
  }

  lemma RequestCalm(r: Rpc, e: Event, d: ConnId)
    requires Enabled(r, e) && OfRequest(e) && !e.StartsByAddress? && !e.Response? && (e.SendEnds? ==> e.ok)
    ensures CalmAt(r, React(r, e), d)
  {
    SameLinksCalm(r, React(r, e), d);
  }

  lemma IncomingCalm(r: Rpc, href: string, up: bool, d: ConnId)
    requires Inv(r)
    ensures CalmAt(r, AddConnection(r, href, up), d)
  {
    AddKeeps(r, href, up);
  }

  lemma LinkCalm(r: Rpc, e: Event, d: ConnId)
    requires Enabled(r, e)
    requires e.IsConnected? || e.IdUsed? || e.RouterSet? || (e.ReconnectWorked? && e.c != d)
    ensures CalmAt(r, React(r, e), d)
  {
    SameLinksCalm(r, React(r, e), d);
  }

  /** The connections that a state has, and which of them are closed. */
  ghost predicate Alike(r: Rpc, p: Rpc) {
    && p.links.Keys == r.links.Keys
    && forall b :: b in r.links ==>
         && p.links[b].timer == r.links[b].timer && p.links[b].failures == r.links[b].failures
         && Closed(p.links[b]) == Closed(r.links[b])
  }

  /** Only timers, counts and closings of connections matter to the effect of a step. */
  lemma SameEffect(r: Rpc, s: Rpc, p: Rpc, t: Rpc, d: ConnId)
    requires Alike(r, p) && Alike(s, t) && Effect(p, t, d)
    ensures Effect(r, s, d)
  {
    if !CalmAt(p, t, d) {
      var c :| ArmsAfter(p, t, c, d);
      assert forall b :: Closes(r, s, b) ==> Closes(p, t, b);
      assert ArmsAfter(r, s, c, d);
    }
  }

  /** A failed send only adds to the closing that its request waits. */
  lemma SendEffect(r: Rpc, q: ReqKey, d: ConnId)
    requires Inv(r) && q in r.reqs && r.reqs[q].conn in r.links
    ensures Effect(r, AfterSend(r, q, false), d)
  {
    var c := r.reqs[q].conn;
    CloseEffect(r, c, d);
    SameEffect(r, AfterSend(r, q, false), r, CloseLink(r, c), d);
  }

  lemma PingedAlike(r: Rpc, c: ConnId)
    requires c in r.links
    ensures Alike(r, Pinged(r, c))
  {
    assert Pinged(r, c).links.Keys == r.links.Keys;
  }

  lemma PingEffect(r: Rpc, c: ConnId, d: ConnId)
    requires Inv(r) && c in r.links
    ensures Effect(r, PingTick(r, c), d)
  {
    var p := Pinged(r, c);
    PingedKeeps(r, c);
    PingedAlike(r, c);
    if |p.links[c].pings.value| > PING_EXHAUSTED_COUNT {
      CloseEffect(p, c, d);
      assert Alike(CloseLink(p, c), CloseLink(p, c));
      SameEffect(r, CloseLink(p, c), p, CloseLink(p, c), d);
    } else {
      assert CalmAt(r, p, d);
    }
  }

  lemma PongEffect(r: Rpc, c: ConnId, reqid: string, d: ConnId)
    requires Inv(r) && c in r.links
    ensures Effect(r, OnPong(r, c, reqid), d)
  {
    if r.links[c].pings.None? {
      CloseEffect(r, c, d);
    } else {
      assert CalmAt(r, OnPong(r, c, reqid), d);
    }
  }

  lemma ResponseEffect(r: Rpc, c: ConnId, reqid: string, readable: bool, d: ConnId)
    requires Inv(r) && c in r.links
    ensures Effect(r, OnResponse(r, c, reqid, readable), d)
  {
    if IsPending(r, c, reqid) && !readable {
      CloseEffect(r, c, d);
    } else {
      assert CalmAt(r, OnResponse(r, c, reqid, readable), d);
    }
  }

  /** What any event does to the timer and the count of a connection. */
  lemma StepEffect(r: Rpc, e: Event, d: ConnId)
    requires Inv(r) && Enabled(r, e)
    ensures if e == ReconnectWorked(d) then !Arms(r, React(r, e), d) else Effect(r, React(r, e), d)
  {
    if e == ReconnectWorked(d) {
      SuccessLeavesTimers(r, d, d);
    } else if OfRequest(e) {
      RequestEffect(r, e, d);
    } else {
      OtherStepEffect(r, e, d);
    }
  }

  lemma RequestEffect(r: Rpc, e: Event, d: ConnId)
    requires Inv(r) && Enabled(r, e) && OfRequest(e)
    ensures Effect(r, React(r, e), d)
  {
    match e
    case SendEnds(q, ok) =>
      if ok {
        RequestCalm(r, e, d);
      } else {
        SendEffect(r, q, d);
      }
    case Response(c, reqid, readable) => ResponseEffect(r, c, reqid, readable, d);
    case StartsByAddress(q, href) => StartCalm(r, q, href, d);
    case _ => RequestCalm(r, e, d);
  }

  lemma OtherStepEffect(r: Rpc, e: Event, d: ConnId)
    requires Inv(r) && Enabled(r, e) && !OfRequest(e) && e != ReconnectWorked(d)
    ensures Effect(r, React(r, e), d)
  {
    match e
    case Fails(c) => CloseEffect(r, c, d);
    case PingIsDue(c) => PingEffect(r, c, d);
    case Pong(c, reqid) => PongEffect(r, c, reqid, d);
    case ReconnectIsDue(c) => TimerCalm(r, c, d);
    case DisconnectedStateSet(on) => DisconnectCalm(r.(disconnected := true), d);
    case Incoming(href, up) => IncomingCalm(r, href, up, d);
    case _ => LinkCalm(r, e, d);
  }

  ghost predicate EffectAt(run: seq<Rpc>, events: seq<Event>, n: nat, d: ConnId) {
    n < |events| && n + 1 < |run| && events[n] != ReconnectWorked(d) ==> Effect(run[n], run[n + 1], d)
  }

  lemma TraceEffect(run: seq<Rpc>, events: seq<Event>, n: nat, d: ConnId)
    requires IsTrace(run, events)
    ensures EffectAt(run, events, n, d)
  {
    if n < |events| && events[n] != ReconnectWorked(d) {
      TraceIsRun(run, events);
      RunKeeps(run, n);
      assert Stepped(run, events, n);
      StepEffect(run[n], events[n], d);
    }
  }

  /** In the steps from m to n the connection is neither armed nor reconnected successfully. */
  ghost predicate Undisturbed(run: seq<Rpc>, events: seq<Event>, d: ConnId, m: nat, n: nat) {
    n <= |events| < |run| && forall j :: m <= j < n ==> QuietAt(run, events, d, j)
  }

  ghost predicate QuietAt(run: seq<Rpc>, events: seq<Event>, d: ConnId, j: nat) {
    j < |events| && j + 1 < |run| && events[j] != ReconnectWorked(d) && !Arms(run[j], run[j + 1], d)
  }

  /** Then it carries its count through whatever else happens. */
  lemma {:induction false} CountStays(run: seq<Rpc>, events: seq<Event>, d: ConnId, m: nat, n: nat)
    requires IsTrace(run, events) && m <= n && Undisturbed(run, events, d, m, n) && d in run[m].links
    ensures d in run[n].links && run[n].links[d].failures == run[m].links[d].failures
    decreases n
  {
    if m < n {
      CountStays(run, events, d, m, n - 1);
      assert QuietAt(run, events, d, n - 1);
      TraceEffect(run, events, n - 1, d);
    }
  }

  /** Reconnects in a row: in step at[i] connection via[i] closes and via[i + 1] is armed; in between
      via[i + 1] is not armed by anything else, and no attempt to reconnect it succeeds. Anything else
      may happen meanwhile. */
  ghost predicate InARow(run: seq<Rpc>, events: seq<Event>, at: seq<nat>, via: seq<ConnId>, i: nat)
    requires i < |at| && |via| == |at| + 1 && at[i] < |events| < |run|
  {
    && Closes(run[at[i]], run[at[i] + 1], via[i]) && Arms(run[at[i]], run[at[i] + 1], via[i + 1])
    && (i > 0 ==> at[i - 1] < at[i] && Undisturbed(run, events, via[i], at[i - 1] + 1, at[i]))
  }

  /** A connection that carries no backoff has no reconnects behind it. */
  lemma NoBackoffNoFailures(r: Rpc, c: ConnId)
    requires Inv(r) && c in r.links && r.links[c].backoff == 0.0
    ensures r.links[c].failures == 0
  {
    assert LinkOk(r, c);
    Backoff.WaitsGrowToMax(0, r.links[c].failures);
  }

  /** One arming step: the connection that closes decides. */
  lemma ArmingStep(run: seq<Rpc>, events: seq<Event>, n: nat, c: ConnId, d: ConnId)
    requires IsTrace(run, events) && n < |events|
    requires Closes(run[n], run[n + 1], c) && Arms(run[n], run[n + 1], d)
    ensures run[n + 1].links[d].timer == Some(Backoff.Wait(run[n].links[c].failures))
    ensures run[n + 1].links[d].failures == run[n].links[c].failures + 1
  {
    TraceEffect(run, events, n, d);
    assert Stepped(run, events, n);
    if events[n] != ReconnectWorked(d) {
      var b :| ArmsAfter(run[n], run[n + 1], b, d);
      assert b == c;
    }
  }

  /** In every run: the first of these connections carried no backoff when it closed, so after it and k
      more in a row closed without a success the wait is exactly min(250 * 1.2^k, 5000), whatever else
      went on in between. */
  lemma {:induction false} KthWait(run: seq<Rpc>, events: seq<Event>, at: seq<nat>, via: seq<ConnId>, k: nat)
    requires IsTrace(run, events) && k < |at| && |via| == |at| + 1
    requires forall i :: 0 <= i < |at| ==> at[i] < |events|
    requires forall i :: 0 <= i <= k ==> InARow(run, events, at, via, i)
    requires via[0] in run[at[0]].links && run[at[0]].links[via[0]].backoff == 0.0
    ensures via[k + 1] in run[at[k] + 1].links
    ensures run[at[k] + 1].links[via[k + 1]].timer == Some(Backoff.Min(250.0 * Backoff.Pow(k), 5000.0))
    ensures run[at[k] + 1].links[via[k + 1]].failures == k + 1
  {
    assert InARow(run, events, at, via, k);
    ArmingStep(run, events, at[k], via[k], via[k + 1]);
    if k == 0 {
      TraceIsRun(run, events);
      RunKeeps(run, at[0]);
      NoBackoffNoFailures(run[at[0]], via[0]);
    } else {
      KthWait(run, events, at, via, k - 1);
      CountStays(run, events, via[k], at[k - 1] + 1, at[k]);
    }
  }

  // ---------------------------------------------------------- witnesses

  const CLIENT: Rpc := Rpc(map[], map[], map[], false, 0, "ws")

  function Replay(r: Rpc, events: seq<Event>): Option<Rpc>
    decreases |events|
  {
    if events == [] then Some(r)
    else if Enabled(r, events[0]) then Replay(React(r, events[0]), events[1..])
    else None
  }

  lemma {:induction false} ReplayAdd(r: Rpc, a: seq<Event>, b: seq<Event>)
    requires Replay(r, a).Some?
    ensures Replay(r, a + b) == Replay(Replay(r, a).value, b)
    decreases |a|
  {
    if a == [] {
      assert a + b == b;
    } else {
      var s, tail := React(r, a[0]), a[1..];
      assert (a + b)[0] == a[0] && (a + b)[1..] == tail + b;
      assert Replay(r, a) == Replay(s, tail);
      assert Replay(r, a + b) == Replay(s, tail + b);
      ReplayAdd(s, tail, b);
    }
  }

  predicate IsUp(r: Rpc, c: ConnId) {
    && c in r.links && r.links[c].href == "ws" && r.links[c].accepted && !Closed(r.links[c])
    && r.links[c].backoff == 0.0 && r.links[c].timer.None? && !r.links[c].noReconnect
  }

  /** Two connections of one address, of which the second replaced the first. */
  predicate Replaced(r: Rpc) {
    && IsUp(r, 0) && IsUp(r, 1) && r.nextConn == 2 && r.pool == map["ws" := 1]
    && !r.disconnected && r.routerDefault == "ws"
  }

  const TWICE: seq<Event> := [Incoming("ws", true), Incoming("ws", true)]

  lemma TwoComeIn()
    ensures Replay(CLIENT, TWICE).Some? && Replaced(Replay(CLIENT, TWICE).value)
  {
    var r1 := React(CLIENT, Incoming("ws", true));
    var r2 := React(r1, Incoming("ws", true));
    assert IsUp(r2, 0) && IsUp(r2, 1);
    assert Replay(r1, [Incoming("ws", true)]) == Replay(r2, []) == Some(r2);
    assert TWICE[1..] == [Incoming("ws", true)];
  }

  lemma OldOneCloses(r: Rpc)
    requires Replaced(r)
    ensures
      var end := Replay(r, [DisconnectedStateSet(true), Fails(0)]);
      end.Some? && ClosedButArmed(end.value, 2)
  {
    var s := React(r, DisconnectedStateSet(true));
    assert !PooledAt(r.(disconnected := true), r.pool.Keys, 0);
    assert IsUp(s, 0) && s.disconnected && s.pool == map[] && s.nextConn == 2;
    var t := React(s, Fails(0));
    assert ClosedButArmed(t, 2);
    assert Replay(s, [Fails(0)]) == Replay(t, []) == Some(t);
  }

  /** A replaced connection that closes while the client is disconnected leaves a closed one waiting. */
  lemma ClosedYetWaiting()
    ensures
      var events := [Incoming("ws", true), Incoming("ws", true), DisconnectedStateSet(true), Fails(0)];
      Replay(CLIENT, events).Some? && ClosedButArmed(Replay(CLIENT, events).value, 2)
  {
    TwoComeIn();
    OldOneCloses(Replay(CLIENT, TWICE).value);
    ReplayAdd(CLIENT, TWICE, [DisconnectedStateSet(true), Fails(0)]);
  }

  /** An old connection is open, and an attempt to reconnect the pooled one is under way. */
  predicate AttemptUnderWay(r: Rpc) {
    && 0 in r.links && r.links[0].href == "ws" && !Closed(r.links[0]) && r.links[0].accepted
    && r.links[0].backoff == 0.0 && !r.links[0].noReconnect
    && 2 in r.links && r.links[2].trying == 1 && r.links[2].timer.None? && r.links[2].conn.state == Conns.Connecting
    && r.links[2].conn.listening && r.links[2].conn.held
    && r.pool == map["ws" := 2] && r.routerDefault == "ws"
  }

  predicate WaitsForAttempt(r: Rpc) {
    && IsUp(r, 0) && 2 in r.links && r.links[2].timer == Some(250.0) && r.links[2].trying == 0
    && r.links[2].href == "ws" && r.links[2].conn == Conns.NEW_CONN
    && r.pool == map["ws" := 2] && r.routerDefault == "ws"
  }

  lemma NewOneIsArmed(r: Rpc)
    requires Replaced(r)
    ensures WaitsForAttempt(React(r, Fails(1)))
  {
    var s := Shut(r, 1);
    assert s.pool == map[];
    assert IsUp(s, 0) && s.routerDefault == "ws" && !s.disconnected && s.nextConn == 2;
    assert WaitsForAttempt(Reconnect(s, "ws", 0.0, r.links[1].failures));
  }

  lemma AttemptBegins(r: Rpc)
    requires WaitsForAttempt(r)
    ensures Enabled(r, ReconnectIsDue(2)) && AttemptUnderWay(React(r, ReconnectIsDue(2)))
  {
    var s := WithLink(r, 2, r.links[2].(timer := None));
    assert GetConnection(s, "ws") == (s, 2);
    assert React(r, ReconnectIsDue(2)) == WithLink(s, 2, Tried(s.links[2]));
  }

  lemma AttemptStarts(r: Rpc)
    requires Replaced(r)
    ensures
      var end := Replay(r, [Fails(1), ReconnectIsDue(2)]);
      end.Some? && AttemptUnderWay(end.value)
  {
    var s := React(r, Fails(1));
    NewOneIsArmed(r);
    AttemptBegins(s);
    var t := React(s, ReconnectIsDue(2));
    assert Replay(s, [ReconnectIsDue(2)]) == Replay(t, []) == Some(t);
  }

  /** The connection is armed while its attempt is under way. */
  predicate ArmedInAttempt(r: Rpc) {
    && 2 in r.links && r.links[2].timer == Some(250.0) && r.links[2].trying == 1
    && r.links[2].conn.state == Conns.Connecting && r.links[2].conn.listening && r.links[2].conn.held
  }

  lemma ArmedAgain(r: Rpc)
    requires AttemptUnderWay(r)
    ensures ArmedInAttempt(React(r, Fails(0)))
  {
    var s := Shut(r, 0);
    assert s.pool == r.pool && s.links[2] == r.links[2];
    assert ArmedInAttempt(Reconnect(s, "ws", 0.0, r.links[0].failures));
  }

  lemma AttemptEnds(r: Rpc)
    requires AttemptUnderWay(r)
    ensures
      var end := Replay(r, [Fails(0), IsConnected(2), ReconnectWorked(2)]);
      && end.Some? && 2 in end.value.links && !Closed(end.value.links[2])
      && end.value.links[2].timer == Some(250.0) && end.value.links[2].backoff == 0.0
  {
    var s := React(r, Fails(0));
    ArmedAgain(r);
    AttemptWorks(s);
    assert Replay(r, [Fails(0), IsConnected(2), ReconnectWorked(2)]) == Replay(s, [IsConnected(2), ReconnectWorked(2)]);
  }

  lemma AttemptWorks(r: Rpc)
    requires ArmedInAttempt(r)
    ensures
      var end := Replay(r, [IsConnected(2), ReconnectWorked(2)]);
      && end.Some? && 2 in end.value.links && !Closed(end.value.links[2])
      && end.value.links[2].timer == Some(250.0) && end.value.links[2].backoff == 0.0
  {
    var s := React(r, IsConnected(2));
    var t := React(s, ReconnectWorked(2));
    assert Replay(s, [ReconnectWorked(2)]) == Replay(t, []) == Some(t);
  }

  /** A timer can be armed again while an attempt is under way; when the attempt succeeds, the timer runs
      on although no backoff is carried. */
  lemma ArmedWithoutBackoff()
    ensures
      var events := [Incoming("ws", true), Incoming("ws", true), Fails(1), ReconnectIsDue(2), Fails(0),
                     IsConnected(2), ReconnectWorked(2)];
      var end := Replay(CLIENT, events);
      && end.Some? && 2 in end.value.links && !Closed(end.value.links[2])
      && end.value.links[2].timer == Some(250.0) && end.value.links[2].backoff == 0.0
  {
    var second, third := [Fails(1), ReconnectIsDue(2)], [Fails(0), IsConnected(2), ReconnectWorked(2)];
    TwoComeIn();
    var r := Replay(CLIENT, TWICE).value;
    AttemptStarts(r);
    AttemptEnds(Replay(r, second).value);
    ReplayAdd(r, second, third);
    ReplayAdd(CLIENT, TWICE, second + third);
  }
}
