/** The connection state machine (src/rpc/rpc_base_conn.js). */
module RpcBaseConn {
  import opened Bytes

  datatype ConnState = Init | Connecting | Connected | Closed

  function Rank(s: ConnState): nat {
    match s
    case Init => 0 case Connecting => 1 case Connected => 2 case Closed => 3
  }

  datatype Defer = Pending | Resolved | Rejected

  /** `held` tells that `connecting_defer` is not null, `listening` that the one-time 'connect'
      listener is still installed, `settles` counts how often the promise was settled. */
  datatype Conn = Conn(
    state: ConnState, held: bool, defer: Defer, settles: nat,
    timer: bool, listening: bool, nextSeq: nat, closeEvents: nat)

  const NEW_CONN: Conn := Conn(Init, true, Pending, 0, false, true, 1, 0)

  function Settle(c: Conn, how: Defer): Conn {
    if c.held then c.(held := false, defer := how, settles := c.settles + 1) else c
  }

  /** The 'connect' listener. */
  function OnConnect(c: Conn): Conn {
    if !c.listening then c
    else
      var d := if c.state == Connecting || c.state == Init then c.(state := Connected, timer := false) else c;
      Settle(d.(listening := false), Resolved)
  }

  datatype ConnectResult = AwaitDefer | Done | Failed

  function ConnectCall(c: Conn): (Conn, ConnectResult) {
    match c.state
    case Init => (c.(state := Connecting, timer := true), AwaitDefer)
    case Connecting => (c, AwaitDefer)
    case Connected => (c, Done)
    case Closed => (c, Failed)
  }

  function CloseConn(c: Conn): Conn {
    if c.state == Closed then c
    else Settle(c.(state := Closed, closeEvents := c.closeEvents + 1, timer := false), Rejected)
  }

  function Reqid(n: nat, connid: string): string { ToDecimal(n) + "@" + connid }

  function AllocReqid(c: Conn): Conn { c.(nextSeq := c.nextSeq + 1) }

  datatype Event = ConnectIsCalled | ConnectEvent | TimerFires | ErrorEvent | CloseIsCalled | IdAllocated

  function Next(c: Conn, e: Event): Conn {
    match e
    case ConnectIsCalled => ConnectCall(c).0
    case ConnectEvent => OnConnect(c)
    case TimerFires => if c.timer then CloseConn(c.(timer := false)) else c
    case ErrorEvent => CloseConn(c)
    case CloseIsCalled => CloseConn(c)
    case IdAllocated => AllocReqid(c)
  }

  ghost predicate Valid(c: Conn) {
    && (c.held <==> c.state == Init || c.state == Connecting)
    && (c.held <==> c.defer == Pending)
    && c.settles == (if c.held then 0 else 1)
    && (c.held ==> c.listening)
    && (c.timer <==> c.state == Connecting)
    && c.closeEvents == (if c.state == Closed then 1 else 0)
    && 1 <= c.nextSeq
  }

  ghost predicate Advances(c: Conn, d: Conn) {
    && Rank(c.state) <= Rank(d.state)
    && (c.defer != Pending ==> d.defer == c.defer)
    && c.nextSeq <= d.nextSeq
  }

  function Run(c: Conn, events: seq<Event>): Conn
    decreases |events|
  {
    if events == [] then c else Run(Next(c, events[0]), events[1..])
  }

  /** In any run the state only advances, the promise is held exactly while the connection is not yet
      settled and is settled once and for good, and the timer is armed exactly while connecting. */
  lemma {:induction false} RunAdvances(c: Conn, events: seq<Event>)
    requires Valid(c)
    ensures Valid(Run(c, events)) && Advances(c, Run(c, events))
    decreases |events|
  {
    if events == [] {
    } else {
      RunAdvances(Next(c, events[0]), events[1..]);
    }
  }

  /** What connecting answers: it waits exactly while the promise is pending, is done on a connected connection and
      fails on a closed one; the first call starts connecting and with it the timer. */
  lemma ConnectAnswers(c: Conn)
    requires Valid(c)
    ensures
      var (d, r) := ConnectCall(c);
      && (r == AwaitDefer <==> c.defer == Pending) && (r == Done <==> c.state == Connected)
      && (r == Failed <==> c.state == Closed)
      && (c.state == Init ==> d == c.(state := Connecting, timer := true)) && (c.state != Init ==> d == c)
  {
  }

  /** Where each event takes the connection: a connect event connects one that is not closed, an error, a call of
      close and the timer, which runs only while connecting, close it. */
  lemma EventsMove(c: Conn, e: Event)
    requires Valid(c)
    ensures
      var d := Next(c, e);
      && (e == ConnectEvent ==> d.state == if c.state == Closed then Closed else Connected)
      && (e == ErrorEvent || e == CloseIsCalled ==> d.state == Closed)
      && (e == TimerFires ==> d.state == if c.state == Connecting then Closed else c.state)
      && (d.defer == Rejected <==> c.defer == Rejected || (c.defer == Pending && d.state == Closed))
      && (d.nextSeq == c.nextSeq + 1 <==> e == IdAllocated) && (e == IdAllocated || d.nextSeq == c.nextSeq)
  {
  }

  /** The connect event comes at this point, and the connection is not closed yet. */
  ghost predicate ConnectsAt(c: Conn, events: seq<Event>, i: nat) {
    i < |events| && events[i] == ConnectEvent && Run(c, events[..i]).state != Closed
  }

  lemma ConnectsLater(c: Conn, events: seq<Event>, i: nat)
    requires i < |events| - 1
    ensures ConnectsAt(c, events, i + 1) <==> ConnectsAt(Next(c, events[0]), events[1..], i)
  {
    assert events[..i + 1][1..] == events[1..][..i];
  }

  /** In any run the promise ends up resolved exactly if it was, or if it was pending and a connect event
      came before the connection closed. */
  lemma {:induction false} ConnectedResolves(c: Conn, events: seq<Event>)
    requires Valid(c)
    ensures Run(c, events).defer == Resolved
       <==> c.defer == Resolved || (c.defer == Pending && exists i: nat :: ConnectsAt(c, events, i))
    decreases |events|
  {
    if events == [] {
      assert forall i: nat :: !ConnectsAt(c, events, i);
    } else {
      var d, tail := Next(c, events[0]), events[1..];
      ConnectedResolves(d, tail);
      assert ConnectsAt(c, events, 0) <==> events[0] == ConnectEvent && c.state != Closed by {
        assert events[..0] == [];
      }
      forall i: nat | i < |tail| ensures ConnectsAt(c, events, i + 1) <==> ConnectsAt(d, tail, i) {
        ConnectsLater(c, events, i);
      }
      if d.state == Closed {
        forall i: nat | i < |tail| ensures !ConnectsAt(d, tail, i) {
          RunAdvances(d, tail[..i]);
        }
      }
      if i: nat :| ConnectsAt(c, events, i) {
        assert i == 0 || ConnectsAt(d, tail, i - 1);
      }
      if i: nat :| ConnectsAt(d, tail, i) {
        assert ConnectsAt(c, events, i + 1);
      }
    }
  }

  /** The ids handed out along a run. */
  function Ids(c: Conn, connid: string, events: seq<Event>): seq<string>
    decreases |events|
  {
    if events == [] then []
    else
      var more := Ids(Next(c, events[0]), connid, events[1..]);
      if events[0] == IdAllocated then [Reqid(c.nextSeq, connid)] + more else more
  }

  lemma ReqidInjective(m: nat, n: nat, connid: string)
    requires Reqid(m, connid) == Reqid(n, connid)
    ensures m == n
  {
    var a, b := ToDecimal(m), ToDecimal(n);
    DecimalHasOnlyDigits(m);
    DecimalHasOnlyDigits(n);
    assert |a| == |b|;
    assert a == Reqid(m, connid)[..|a|] == b;
    DecimalRoundTrip(m);
    DecimalRoundTrip(n);
  }

  lemma {:induction false} IdsAreLater(c: Conn, connid: string, events: seq<Event>, k: nat) returns (n: nat)
    requires k < |Ids(c, connid, events)|
    ensures c.nextSeq <= n && Ids(c, connid, events)[k] == Reqid(n, connid)
    decreases |events|
  {
    var d := Next(c, events[0]);
    if events[0] == IdAllocated {
      if k == 0 {
        n := c.nextSeq;
      } else {
        n := IdsAreLater(d, connid, events[1..], k - 1);
      }
    } else {
      assert d.nextSeq == c.nextSeq;
      n := IdsAreLater(d, connid, events[1..], k);
    }
  }

  /** One connection never hands out the same request id twice. */
  lemma {:induction false} IdsDistinct(c: Conn, connid: string, events: seq<Event>)
    ensures forall j, k :: 0 <= j < k < |Ids(c, connid, events)| ==>
          Ids(c, connid, events)[j] != Ids(c, connid, events)[k]
    decreases |events|
  {
    if events == [] {
    } else {
      var d, tail := Next(c, events[0]), events[1..];
      IdsDistinct(d, connid, tail);
      if events[0] == IdAllocated {
        forall k | 0 <= k < |Ids(d, connid, tail)| ensures Ids(d, connid, tail)[k] != Reqid(c.nextSeq, connid) {
          var n := IdsAreLater(d, connid, tail, k);
          if Reqid(n, connid) == Reqid(c.nextSeq, connid) {
            ReqidInjective(n, c.nextSeq, connid);
          }
        }
      }
    }
  }

  /** The connection object. Closing the transport below it is left to the object that owns it. */
  class RpcBaseConnection {
    const href: string
    const connid: string
    var state: ConnState
    var held: bool
    var defer: Defer
    ghost var settles: nat
    var timer: bool
    var listening: bool
    var nextSeq: nat
    var closeEvents: nat

    ghost function View(): Conn
      reads this
    {
      Conn(state, held, defer, settles, timer, listening, nextSeq, closeEvents)
    }

    constructor (href: string, stamp: string)
      ensures View() == NEW_CONN && this.href == href && this.connid == href + "(" + stamp + ")"
    {
      this.href := href;
      this.connid := href + "(" + stamp + ")";
      state, held, defer, settles := Init, true, Pending, 0;
      timer, listening, nextSeq, closeEvents := false, true, 1, 0;
    }

    method OnConnectEvent()
      modifies this
      ensures View() == OnConnect(old(View()))
    {
      if !listening {
        return;
      }
      listening := false;
      if state == Connecting || state == Init {
        state := Connected;
        timer := false;
      }
      if held {
        defer, held := Resolved, false;
        settles := settles + 1;
      }
    }

    method Connect() returns (r: ConnectResult)
      modifies this
      ensures (View(), r) == ConnectCall(old(View()))
    {
      match state
      case Init =>
        state := Connecting;
        timer := true;
        r := AwaitDefer;
      case Connecting => r := AwaitDefer;
      case Connected => r := Done;
      case Closed => r := Failed;
    }

    /** True if this call closed the connection. */
    method Close() returns (closing: bool)
      modifies this
      ensures View() == CloseConn(old(View()))
      ensures closing <==> old(state) != Closed
    {
      if state == Closed {
        return false;
      }
      state := Closed;
      closeEvents := closeEvents + 1;
      timer := false;
      if held {
        defer, held := Rejected, false;
        settles := settles + 1;
      }
      closing := true;
    }

    method AllocateReqid() returns (reqid: string)
      modifies this
      ensures View() == AllocReqid(old(View()))
      ensures reqid == Reqid(old(nextSeq), connid) == ToDecimal(old(nextSeq)) + "@" + connid
    {
      reqid := ToDecimal(nextSeq) + "@" + connid;
      nextSeq := nextSeq + 1;
    }
  }
}
