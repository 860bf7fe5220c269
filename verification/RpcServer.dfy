/** The server side of an RPC object: serving requests that interleave at awaits, with duplicates of a
    running request sharing its execution (src/rpc/rpc.js). */
module RpcServer {
  import opened Wrappers

  type ConnId = nat
  type ReqKey = nat
  type ExecId = nat
  type Value = string

  /** What a promise can be rejected with: an RpcError, any other value, or null or undefined. */
  datatype Failure = RpcFailure(code: string) | Plain(rpcCode: string) | Nullish

  datatype Outcome = Returned(reply: Value) | Failed(failure: Failure)

  datatype Response = Reply(reply: Value) | Error(code: string)

  datatype Exec = Exec(conn: ConnId, reqid: string, outcome: Option<Outcome>)

  datatype Phase = InMiddleware(left: nat) | Awaiting | Sending | Over

  /** `attempts` counts the calls that send a response, `response` is what the last one carried, `ended`
      what serving the request ended with, and `exec` the execution it waited for. */
  datatype Serving = Serving(conn: ConnId, reqid: string, phase: Phase, exec: Option<ExecId>,
                             attempts: nat, response: Option<Response>, ended: Option<Outcome>)

  /** `received` holds the executions by connection and request id. */
  datatype Server = Server(
    received: map<(ConnId, string), ExecId>, execs: map<ExecId, Exec>, reqs: map<ReqKey, Serving>, nextExec: nat)

  function ErrorCode(f: Failure): string
    requires !f.Nullish?
  {
    match f
    case RpcFailure(code) => code
    case Plain(rpcCode) => if rpcCode == "" then "INTERNAL" else rpcCode
  }

  /** A response is on its way. */
  function Respond(q: Serving, r: Response, ended: Outcome): Serving {
    q.(phase := Sending, attempts := q.attempts + 1, response := Some(r), ended := Some(ended))
  }

  /** Sending is over, well or badly: its failure is caught where it happens, so it does not get to the
      catch block and no second response is tried. */
  function Sent(q: Serving, failure: Option<Failure>): Serving { q.(phase := Over) }

  /** The catch block: it reads a property of the failure before it answers, so null and undefined
      escape from it. */
  function Catch(q: Serving, f: Failure): Serving {
    if f.Nullish? then q.(phase := Over, ended := Some(Failed(f))) else Respond(q, Error(ErrorCode(f)), Failed(f))
  }

  /** Join the running execution of this id, or start one. */
  function Enter(s: Server, k: ReqKey): Server
    requires k in s.reqs
  {
    var q := s.reqs[k];
    var id := (q.conn, q.reqid);
    if id in s.received then
      s.(reqs := s.reqs[k := q.(phase := Awaiting, exec := Some(s.received[id]))])
    else
      Server(s.received[id := s.nextExec], s.execs[s.nextExec := Exec(q.conn, q.reqid, None)],
             s.reqs[k := q.(phase := Awaiting, exec := Some(s.nextExec))], s.nextExec + 1)
  }

  /** `early` is a failure before the first await: a bad message, bad parameters, disconnected. */
  function Arrive(s: Server, k: ReqKey, c: ConnId, reqid: string, known: bool, early: Option<Failure>,
                  middlewares: nat): Server {
    var q := Serving(c, reqid, InMiddleware(middlewares), None, 0, None, None);
    if !known then
      s.(reqs := s.reqs[k := Respond(q, Error("NO_SUCH_RPC_SERVICE"), Failed(RpcFailure("NO_SUCH_RPC_SERVICE")))])
    else if early.Some? then s.(reqs := s.reqs[k := Catch(q, early.value)])
    else
      var t := s.(reqs := s.reqs[k := q]);
      if middlewares == 0 then Enter(t, k) else t
  }

  function MiddlewareEnds(s: Server, k: ReqKey, failure: Option<Failure>): Server
    requires k in s.reqs && s.reqs[k].phase.InMiddleware? && s.reqs[k].phase.left > 0
  {
    var q := s.reqs[k];
    if failure.Some? then s.(reqs := s.reqs[k := Catch(q, failure.value)])
    else
      var t := s.(reqs := s.reqs[k := q.(phase := InMiddleware(q.phase.left - 1))]);
      if q.phase.left == 1 then Enter(t, k) else t
  }

  function ExecEnds(s: Server, x: ExecId, outcome: Outcome): Server
    requires x in s.execs
  {
    s.(received := s.received - {(s.execs[x].conn, s.execs[x].reqid)},
       execs := s.execs[x := s.execs[x].(outcome := Some(outcome))])
  }

  /** A request resumes with the outcome of its execution; a bad reply is a failure of its own. */
  function Finish(q: Serving, outcome: Outcome, invalid: Option<Failure>): Serving {
    match outcome
    case Failed(f) => Catch(q, f)
    case Returned(reply) => if invalid.Some? then Catch(q, invalid.value) else Respond(q, Reply(reply), outcome)
  }

  function Resume(s: Server, k: ReqKey, invalid: Option<Failure>): Server
    requires k in s.reqs && s.reqs[k].exec.Some? && s.reqs[k].exec.value in s.execs
    requires s.execs[s.reqs[k].exec.value].outcome.Some?
  {
    s.(reqs := s.reqs[k := Finish(s.reqs[k], s.execs[s.reqs[k].exec.value].outcome.value, invalid)])
  }

  datatype Event =
    | Arrives(k: ReqKey, c: ConnId, reqid: string, known: bool, early: Option<Failure>, middlewares: nat)
    | MiddlewareIsOver(k: ReqKey, failure: Option<Failure>)
    | ExecIsOver(x: ExecId, outcome: Outcome)
    | Resumes(k: ReqKey, invalid: Option<Failure>)
    | SendIsOver(k: ReqKey, failure: Option<Failure>)

  predicate Enabled(s: Server, e: Event) {
    match e
    case Arrives(k, _, _, _, early, _) => k !in s.reqs && early != Some(Nullish)
    case MiddlewareIsOver(k, _) => k in s.reqs && s.reqs[k].phase.InMiddleware? && s.reqs[k].phase.left > 0
    case ExecIsOver(x, _) => x in s.execs && s.execs[x].outcome.None?
    case Resumes(k, invalid) =>
      && k in s.reqs && s.reqs[k].phase.Awaiting? && s.reqs[k].exec.Some? && s.reqs[k].exec.value in s.execs
      && s.execs[s.reqs[k].exec.value].outcome.Some? && invalid != Some(Nullish)
    case SendIsOver(k, _) => k in s.reqs && s.reqs[k].phase.Sending?
  }

  function React(s: Server, e: Event): Server
    requires Enabled(s, e)
  {
    match e
    case Arrives(k, c, reqid, known, early, middlewares) => Arrive(s, k, c, reqid, known, early, middlewares)
    case MiddlewareIsOver(k, failure) => MiddlewareEnds(s, k, failure)
    case ExecIsOver(x, outcome) => ExecEnds(s, x, outcome)
    case Resumes(k, invalid) => Resume(s, k, invalid)
    case SendIsOver(k, failure) => s.(reqs := s.reqs[k := Sent(s.reqs[k], failure)])
  }

  // ---------------------------------------------------------- invariant

  predicate Running(s: Server, x: ExecId) { x in s.execs && s.execs[x].outcome.None? }

  ghost predicate ReceivedOk(s: Server, id: (ConnId, string))
    requires id in s.received
  {
    Running(s, s.received[id]) && (s.execs[s.received[id]].conn, s.execs[s.received[id]].reqid) == id
  }

  ghost predicate ExecOk(s: Server, x: ExecId)
    requires x in s.execs
  {
    var id := (s.execs[x].conn, s.execs[x].reqid);
    x < s.nextExec && (Running(s, x) ==> id in s.received && s.received[id] == x)
  }

  /** One attempt exactly when serving ended with something other than null or undefined. */
  ghost predicate ServedOk(s: Server, k: ReqKey)
    requires k in s.reqs
  {
    var q := s.reqs[k];
    && (q.phase.Sending? || q.phase.Over? <==> q.ended.Some?)
    && (q.phase.Sending? ==> q.attempts == 1)
    && q.attempts == (if q.ended.Some? && q.ended != Some(Failed(Nullish)) then 1 else 0)
    && (q.response.Some? <==> q.attempts == 1)
    && (q.phase.InMiddleware? ==> q.exec.None?) && (q.phase.Awaiting? ==> q.exec.Some?)
    && (q.exec.Some? ==>
          && q.exec.value in s.execs
          && s.execs[q.exec.value].conn == q.conn && s.execs[q.exec.value].reqid == q.reqid)
  }

  /** The answer of a request that waited for an execution is that execution's outcome, unless its
      own validation of the reply failed. */
  ghost predicate AnswerOk(s: Server, k: ReqKey)
    requires k in s.reqs
  {
    var q := s.reqs[k];
    q.exec.Some? && q.ended.Some? ==>
      && q.exec.value in s.execs && s.execs[q.exec.value].outcome.Some?
      && (q.ended == s.execs[q.exec.value].outcome
          || (s.execs[q.exec.value].outcome.value.Returned? && q.ended.value.Failed?))
      && (q.ended.value.Returned? ==> q.response == Some(Reply(q.ended.value.reply)))
      && (q.ended.value.Failed? && !q.ended.value.failure.Nullish? ==>
            q.response == Some(Error(ErrorCode(q.ended.value.failure))))
  }

  ghost predicate Inv(s: Server) {
    && (forall id :: id in s.received ==> ReceivedOk(s, id))
    && (forall x :: x in s.execs ==> ExecOk(s, x))
    && (forall k :: k in s.reqs ==> ServedOk(s, k) && AnswerOk(s, k))
  }

  /** Replacing what is known of one request. */
  lemma ServingKeeps(s: Server, k: ReqKey, q: Serving)
    requires Inv(s) && ServedOk(s.(reqs := s.reqs[k := q]), k) && AnswerOk(s.(reqs := s.reqs[k := q]), k)
    ensures Inv(s.(reqs := s.reqs[k := q]))
  {
    var t := s.(reqs := s.reqs[k := q]);
    forall id | id in t.received ensures ReceivedOk(t, id) {
      assert ReceivedOk(s, id);
    }
    forall x | x in t.execs ensures ExecOk(t, x) {
      assert ExecOk(s, x);
    }
    forall j | j in t.reqs ensures ServedOk(t, j) && AnswerOk(t, j) {
      assert j != k ==> ServedOk(s, j) && AnswerOk(s, j);
    }
  }

  lemma EnterKeeps(s: Server, k: ReqKey)
    requires Inv(s) && k in s.reqs && s.reqs[k].exec.None? && s.reqs[k].ended.None?
    ensures Inv(Enter(s, k))
  {
    var q, t := s.reqs[k], Enter(s, k);
    var id := (q.conn, q.reqid);
    assert ServedOk(s, k);
    if id in s.received {
      assert ReceivedOk(s, id);
      ServingKeeps(s, k, t.reqs[k]);
    } else {
      assert s.nextExec in s.execs ==> ExecOk(s, s.nextExec);
      forall i | i in t.received ensures ReceivedOk(t, i) {
        assert i != id ==> ReceivedOk(s, i);
      }
      forall x | x in t.execs ensures ExecOk(t, x) {
        assert x in s.execs ==> ExecOk(s, x);
      }
      forall j | j in t.reqs ensures ServedOk(t, j) && AnswerOk(t, j) {
        assert ServedOk(s, j) && AnswerOk(s, j);
      }
    }
  }

  lemma ArriveKeeps(s: Server, k: ReqKey, c: ConnId, reqid: string, known: bool,
                    early: Option<Failure>, middlewares: nat)
    requires Inv(s) && k !in s.reqs && early != Some(Nullish)
    ensures Inv(Arrive(s, k, c, reqid, known, early, middlewares))
  {
    var q := Serving(c, reqid, InMiddleware(middlewares), None, 0, None, None);
    if known && early.None? {
      ServingKeeps(s, k, q);
      if middlewares == 0 {
        EnterKeeps(s.(reqs := s.reqs[k := q]), k);
      }
    } else {
      ServingKeeps(s, k, Arrive(s, k, c, reqid, known, early, middlewares).reqs[k]);
    }
  }

  lemma MiddlewareKeeps(s: Server, k: ReqKey, failure: Option<Failure>)
    requires Inv(s) && Enabled(s, MiddlewareIsOver(k, failure))
    ensures Inv(MiddlewareEnds(s, k, failure))
  {
    var q := s.reqs[k];
    assert ServedOk(s, k) && AnswerOk(s, k);
    if failure.Some? {
      ServingKeeps(s, k, Catch(q, failure.value));
    } else {
      var r := q.(phase := InMiddleware(q.phase.left - 1));
      ServingKeeps(s, k, r);
      if q.phase.left == 1 {
        EnterKeeps(s.(reqs := s.reqs[k := r]), k);
      }
    }
  }

  lemma ExecKeeps(s: Server, x: ExecId, outcome: Outcome)
    requires Inv(s) && Running(s, x)
    ensures Inv(ExecEnds(s, x, outcome))
  {
    var t := ExecEnds(s, x, outcome);
    assert ExecOk(s, x);
    forall id | id in t.received ensures ReceivedOk(t, id) {
      assert ReceivedOk(s, id);
    }
    forall y | y in t.execs ensures ExecOk(t, y) {
      assert ExecOk(s, y);
    }
    forall j | j in t.reqs ensures ServedOk(t, j) && AnswerOk(t, j) {
      assert ServedOk(s, j) && AnswerOk(s, j);
    }
  }

  lemma StepKeeps(s: Server, e: Event)
    requires Inv(s) && Enabled(s, e)
    ensures Inv(React(s, e))
  {
    match e
    case Arrives(k, c, reqid, known, early, middlewares) => ArriveKeeps(s, k, c, reqid, known, early, middlewares);
    case MiddlewareIsOver(k, failure) => MiddlewareKeeps(s, k, failure);
    case ExecIsOver(x, outcome) => ExecKeeps(s, x, outcome);
    case Resumes(k, invalid) =>
      assert ServedOk(s, k) && AnswerOk(s, k);
      ServingKeeps(s, k, Resume(s, k, invalid).reqs[k]);
    case SendIsOver(k, failure) =>
      assert ServedOk(s, k) && AnswerOk(s, k);
      ServingKeeps(s, k, Sent(s.reqs[k], failure));
  }

  // --------------------------------------------------------------- runs

  predicate Initial(s: Server) { s.received == map[] && s.execs == map[] && s.reqs == map[] }

  ghost predicate StepAt(run: seq<Server>, j: nat) {
    j + 1 < |run| ==> exists e :: Enabled(run[j], e) && run[j + 1] == React(run[j], e)
  }

  ghost predicate IsRun(run: seq<Server>) {
    run != [] && Initial(run[0]) && forall j :: 0 <= j < |run| ==> StepAt(run, j)
  }

  lemma {:induction false} RunKeeps(run: seq<Server>, j: nat)
    requires IsRun(run) && j < |run|
    ensures Inv(run[j])
  {
    if j == 0 {
    } else {
      RunKeeps(run, j - 1);
      assert StepAt(run, j - 1);
      var e :| Enabled(run[j - 1], e) && run[j] == React(run[j - 1], e);
      StepKeeps(run[j - 1], e);
    }
  }

  /** In every run the map of received requests holds exactly the running executions, so there is at
      most one of a connection and id at any time. */
  lemma OneExecutionAtATime(run: seq<Server>, j: nat, x: ExecId, y: ExecId)
    requires IsRun(run) && j < |run| && Running(run[j], x)
    ensures
      var s, id := run[j], (run[j].execs[x].conn, run[j].execs[x].reqid);
      && id in s.received && s.received[id] == x
      && (Running(s, y) && (s.execs[y].conn, s.execs[y].reqid) == id ==> y == x)
      && forall i :: i in s.received ==> Running(s, s.received[i])
  {
    RunKeeps(run, j);
    assert ExecOk(run[j], x);
    assert Running(run[j], y) ==> ExecOk(run[j], y);
    forall i | i in run[j].received ensures Running(run[j], run[j].received[i]) {
      assert ReceivedOk(run[j], i);
    }
  }

  /** A duplicate that comes while its twin runs joins it, whatever else is going on. */
  lemma DuplicateJoins(s: Server, k: ReqKey, x: ExecId)
    requires Inv(s) && k in s.reqs && Running(s, x)
    requires s.execs[x].conn == s.reqs[k].conn && s.execs[x].reqid == s.reqs[k].reqid
    ensures Enter(s, k).execs == s.execs && Enter(s, k).reqs[k].exec == Some(x)
  {
    assert ExecOk(s, x);
  }

  /** In every run, exactly one response is tried for a request once serving it ended with anything but
      null or undefined, whether or not that response gets sent, and none otherwise. */
  lemma AnsweredOnce(run: seq<Server>, j: nat, k: ReqKey)
    requires IsRun(run) && j < |run| && k in run[j].reqs
    ensures
      var q := run[j].reqs[k];
      && (q.attempts == 1 <==> q.ended.Some? && q.ended != Some(Failed(Nullish)))
      && (q.phase.Over? ==> q.ended.Some?)
      && q.attempts <= 1
  {
    RunKeeps(run, j);
    assert ServedOk(run[j], k);
  }

  /** In every run, two requests of one execution are answered alike if it failed; if it returned, each
      gets its reply, unless the request's own validation of that reply fails. */
  lemma DuplicatesAnsweredAlike(run: seq<Server>, j: nat, k: ReqKey, l: ReqKey)
    requires IsRun(run) && j < |run| && k in run[j].reqs && l in run[j].reqs
    requires run[j].reqs[k].ended.Some? && run[j].reqs[l].ended.Some?
    requires run[j].reqs[k].exec.Some? && run[j].reqs[k].exec == run[j].reqs[l].exec
    ensures
      var q, r, s := run[j].reqs[k], run[j].reqs[l], run[j];
      && q.exec.value in s.execs && s.execs[q.exec.value].outcome.Some?
      && match s.execs[q.exec.value].outcome.value
         case Failed(f) => q.ended == r.ended == Some(Failed(f)) && q.response == r.response
         case Returned(v) =>
           && (q.ended.value.Failed? || q.response == Some(Reply(v)))
           && (r.ended.value.Failed? || r.response == Some(Reply(v)))
  {
    RunKeeps(run, j);
    assert AnswerOk(run[j], k) && AnswerOk(run[j], l);
    assert ServedOk(run[j], k) && ServedOk(run[j], l);
  }

  // ------------------------------------------------- runs with events

  ghost predicate Stepped(run: seq<Server>, events: seq<Event>, n: nat) {
    n < |events| && n + 1 < |run| ==> Enabled(run[n], events[n]) && run[n + 1] == React(run[n], events[n])
  }

  /** A run together with its events. */
  ghost predicate IsTrace(run: seq<Server>, events: seq<Event>) {
    |run| == |events| + 1 && Initial(run[0]) && forall n :: 0 <= n < |events| ==> Stepped(run, events, n)
  }

  lemma TraceIsRun(run: seq<Server>, events: seq<Event>)
    requires IsTrace(run, events)
    ensures IsRun(run)
  {
    forall j | 0 <= j < |run| ensures StepAt(run, j) {
      if j < |events| {
        assert Stepped(run, events, j);
      }
    }
  }

  /** Outcomes, the executions that requests wait for, and answers never change. */
  ghost predicate Moves(s: Server, t: Server) {
    && (forall x :: x in s.execs && s.execs[x].outcome.Some? ==>
          x in t.execs && t.execs[x].outcome == s.execs[x].outcome)
    && (forall k :: k in s.reqs ==> ServingMoves(s, t, k))
  }

  ghost predicate ServingMoves(s: Server, t: Server, k: ReqKey)
    requires k in s.reqs
  {
    && k in t.reqs && t.reqs[k].conn == s.reqs[k].conn && t.reqs[k].reqid == s.reqs[k].reqid
    && (s.reqs[k].exec.Some? ==> t.reqs[k].exec == s.reqs[k].exec)
    && (s.reqs[k].ended.Some? ==>
          t.reqs[k].ended == s.reqs[k].ended && t.reqs[k].response == s.reqs[k].response
          && t.reqs[k].exec == s.reqs[k].exec)
  }

  lemma RequestMoves(s: Server, e: Event, k: ReqKey)
    requires Enabled(s, e) && k in s.reqs && ServedOk(s, k)
    ensures ServingMoves(s, React(s, e), k)
  {
  }

  lemma StepMoves(s: Server, e: Event)
    requires Inv(s) && Enabled(s, e)
    ensures Moves(s, React(s, e))
  {
    var t := React(s, e);
    assert s.nextExec in s.execs ==> ExecOk(s, s.nextExec);
    forall x | x in s.execs && s.execs[x].outcome.Some?
      ensures x in t.execs && t.execs[x].outcome == s.execs[x].outcome
    {
    }
    forall k | k in s.reqs ensures ServingMoves(s, t, k) {
      RequestMoves(s, e, k);
    }
  }

  lemma {:induction false} MovesAlong(run: seq<Server>, events: seq<Event>, m: nat, n: nat)
    requires IsTrace(run, events) && m <= n < |run|
    ensures Moves(run[m], run[n])
    decreases n
  {
    if m == n {
      assert forall k :: k in run[m].reqs ==> ServingMoves(run[m], run[m], k);
    } else {
      MovesAlong(run, events, m, n - 1);
      TraceIsRun(run, events);
      RunKeeps(run, n - 1);
      assert Stepped(run, events, n - 1);
      StepMoves(run[n - 1], events[n - 1]);
      forall k | k in run[m].reqs ensures ServingMoves(run[m], run[n], k) {
        assert ServingMoves(run[m], run[n - 1], k) && ServingMoves(run[n - 1], run[n], k);
      }
    }
  }

  /** Serving ended like this, and this was answered: the reply, the code of an RPC error, INTERNAL or the code
      that another error carries, and nothing for null and undefined. */
  ghost predicate EndedWith(q: Serving, ended: Outcome) {
    && q.ended == Some(ended)
    && q.response == match ended
                     case Returned(reply) => Some(Reply(reply))
                     case Failed(RpcFailure(code)) => Some(Error(code))
                     case Failed(Plain(code)) => Some(Error(if code == "" then "INTERNAL" else code))
                     case Failed(Nullish) => None
  }

  /** The event that a request ends with: it arrives for no known service or fails early, one of its
      middlewares fails, or its execution is over; then it ends with that execution's failure, or with
      its reply unless that fails the request's own validation. */
  ghost predicate Decides(s: Server, e: Event, k: ReqKey, ended: Outcome) {
    match e
    case Arrives(j, _, _, known, early, _) =>
      && j == k && (!known || early.Some?)
      && ended == Failed(if known then early.value else RpcFailure("NO_SUCH_RPC_SERVICE"))
    case MiddlewareIsOver(j, failure) => j == k && failure.Some? && ended == Failed(failure.value)
    case Resumes(j, invalid) =>
      && j == k && k in s.reqs && s.reqs[k].exec.Some? && s.reqs[k].exec.value in s.execs
      && var outcome := s.execs[s.reqs[k].exec.value].outcome;
         && outcome.Some?
         && ended == if outcome.value.Returned? && invalid.Some? then Failed(invalid.value) else outcome.value
    case _ => false
  }

  lemma DecidedEnds(s: Server, e: Event, k: ReqKey, ended: Outcome)
    requires Enabled(s, e) && (k in s.reqs ==> ServedOk(s, k)) && Decides(s, e, k, ended)
    ensures
      var t := React(s, e);
      k in t.reqs && EndedWith(t.reqs[k], ended) && (t.reqs[k].exec.Some? <==> e.Resumes?)
  {
  }

  lemma EndsDecided(s: Server, e: Event, k: ReqKey, ended: Outcome)
    requires Enabled(s, e) && (k in s.reqs ==> ServedOk(s, k) && s.reqs[k].ended == None)
    requires k in React(s, e).reqs && React(s, e).reqs[k].ended == Some(ended)
    ensures Decides(s, e, k, ended)
  {
  }

  ghost predicate DecidesAt(run: seq<Server>, events: seq<Event>, n: nat, k: ReqKey, ended: Outcome) {
    n < |events| && n < |run| && Decides(run[n], events[n], k, ended)
  }

  lemma DecidedStays(run: seq<Server>, events: seq<Event>, n: nat, j: nat, k: ReqKey, ended: Outcome)
    requires IsTrace(run, events) && n < j < |run| && DecidesAt(run, events, n, k, ended)
    ensures k in run[j].reqs && EndedWith(run[j].reqs[k], ended)
    ensures run[j].reqs[k].exec.Some? <==> events[n].Resumes?
  {
    TraceIsRun(run, events);
    RunKeeps(run, n);
    assert Stepped(run, events, n);
    assert k in run[n].reqs ==> ServedOk(run[n], k);
    DecidedEnds(run[n], events[n], k, ended);
    MovesAlong(run, events, n + 1, j);
    assert ServingMoves(run[n + 1], run[j], k);
  }

  lemma {:induction false} EndWasDecided(run: seq<Server>, events: seq<Event>, j: nat, k: ReqKey, ended: Outcome)
    requires IsTrace(run, events) && j < |run| && k in run[j].reqs && run[j].reqs[k].ended == Some(ended)
    ensures exists n: nat :: n < j && DecidesAt(run, events, n, k, ended)
  {
    if j == 0 {
    } else {
      TraceIsRun(run, events);
      RunKeeps(run, j - 1);
      assert Stepped(run, events, j - 1);
      StepMoves(run[j - 1], events[j - 1]);
      if k in run[j - 1].reqs && run[j - 1].reqs[k].ended.Some? {
        assert ServingMoves(run[j - 1], run[j], k);
        EndWasDecided(run, events, j - 1, k, ended);
      } else {
        assert k in run[j - 1].reqs ==> ServedOk(run[j - 1], k);
        EndsDecided(run[j - 1], events[j - 1], k, ended);
        assert DecidesAt(run, events, j - 1, k, ended);
      }
    }
  }

  /** In every run, serving a request ended like this exactly if an event before decided so, and that is what was
      answered. */
  lemma EndsAsDecided(run: seq<Server>, events: seq<Event>, j: nat, k: ReqKey, ended: Outcome)
    requires IsTrace(run, events) && j < |run|
    ensures (k in run[j].reqs && EndedWith(run[j].reqs[k], ended))
       <==> exists n: nat :: n < j && DecidesAt(run, events, n, k, ended)
    ensures k in run[j].reqs && run[j].reqs[k].ended == Some(ended) ==> EndedWith(run[j].reqs[k], ended)
  {
    if n: nat :| n < j && DecidesAt(run, events, n, k, ended) {
      DecidedStays(run, events, n, j, k, ended);
    }
    if k in run[j].reqs && run[j].reqs[k].ended == Some(ended) {
      EndWasDecided(run, events, j, k, ended);
      var n: nat :| n < j && DecidesAt(run, events, n, k, ended);
      DecidedStays(run, events, n, j, k, ended);
    }
  }

  ghost predicate InvalidAt(events: seq<Event>, n: nat, k: ReqKey, f: Failure) {
    n < |events| && events[n] == Resumes(k, Some(f))
  }

  /** In every run, a request whose execution returned is answered with exactly that reply, unless it resumed
      with a failed validation of the reply: then, and only then, with that failure. */
  lemma ReturnedIsAnswered(run: seq<Server>, events: seq<Event>, j: nat, k: ReqKey, x: ExecId, reply: Value)
    requires IsTrace(run, events) && j < |run| && k in run[j].reqs && run[j].reqs[k].ended.Some?
    requires run[j].reqs[k].exec == Some(x) && x in run[j].execs && run[j].execs[x].outcome == Some(Returned(reply))
    ensures (forall n: nat, f :: n < j ==> !InvalidAt(events, n, k, f)) <==> EndedWith(run[j].reqs[k], Returned(reply))
    ensures forall f :: (exists n: nat :: n < j && InvalidAt(events, n, k, f)) <==> EndedWith(run[j].reqs[k], Failed(f))
  {
    var ended := run[j].reqs[k].ended.value;
    EndWasDecided(run, events, j, k, ended);
    var n: nat :| n < j && DecidesAt(run, events, n, k, ended);
    DecidedStays(run, events, n, j, k, ended);
    OutcomeAt(run, events, n, j, k, x);
    var invalid := events[n].invalid;
    if invalid.Some? {
      assert InvalidAt(events, n, k, invalid.value);
    }
    forall m: nat, f | m < j && InvalidAt(events, m, k, f) ensures ended == Failed(f) {
      InvalidDecides(run, events, m, j, k, x, f);
    }
  }

  /** A request that resumes has the execution and the outcome that it has ever after. */
  lemma OutcomeAt(run: seq<Server>, events: seq<Event>, n: nat, j: nat, k: ReqKey, x: ExecId)
    requires IsTrace(run, events) && n < j < |run| && events[n].Resumes? && events[n].k == k
    requires k in run[j].reqs && run[j].reqs[k].exec == Some(x)
    ensures k in run[n].reqs && run[n].reqs[k].exec == Some(x) && x in run[n].execs && x in run[j].execs
    ensures run[n].execs[x].outcome.Some? && run[j].execs[x].outcome == run[n].execs[x].outcome
  {
    assert Stepped(run, events, n);
    MovesAlong(run, events, n, j);
    assert ServingMoves(run[n], run[j], k);
  }

  lemma InvalidDecides(run: seq<Server>, events: seq<Event>, n: nat, j: nat, k: ReqKey, x: ExecId, f: Failure)
    requires IsTrace(run, events) && n < j < |run| && InvalidAt(events, n, k, f)
    requires k in run[j].reqs && run[j].reqs[k].exec == Some(x)
    requires x in run[j].execs && run[j].execs[x].outcome.Some? && run[j].execs[x].outcome.value.Returned?
    ensures EndedWith(run[j].reqs[k], Failed(f))
  {
    OutcomeAt(run, events, n, j, k, x);
    assert DecidesAt(run, events, n, k, Failed(f));
    DecidedStays(run, events, n, j, k, Failed(f));
  }

  /** A request that got through its early checks and its middlewares waits for an execution of its own connection
      and id: the running one, or a new one if none runs; before that it executes nothing. */
  lemma GoesOn(s: Server, e: Event, k: ReqKey)
    requires Inv(s) && Enabled(s, e)
    requires match e
             case Arrives(j, _, _, known, early, _) => j == k && known && early == None
             case MiddlewareIsOver(j, failure) => j == k && failure == None
             case _ => false
    ensures
      var t := React(s, e);
      var left := if e.Arrives? then e.middlewares else s.reqs[k].phase.left - 1;
      && k in t.reqs && t.reqs[k].ended == None && t.reqs[k].attempts == 0
      && (e.Arrives? ==> t.reqs[k].conn == e.c && t.reqs[k].reqid == e.reqid)
      && if left > 0 then t.reqs[k].phase == InMiddleware(left) && t.reqs[k].exec == None && t.execs == s.execs
         else
           && t.reqs[k].phase == Awaiting && t.reqs[k].exec.Some? && Running(t, t.reqs[k].exec.value)
           && t.execs[t.reqs[k].exec.value] == Exec(t.reqs[k].conn, t.reqs[k].reqid, None)
           && (Running(s, t.reqs[k].exec.value) ==> t.execs == s.execs)
           && (!Running(s, t.reqs[k].exec.value) ==>
                 && t.reqs[k].exec.value !in s.execs
                 && t.execs == s.execs[t.reqs[k].exec.value := t.execs[t.reqs[k].exec.value]]
                 && forall x :: Running(s, x) ==>
                      (s.execs[x].conn, s.execs[x].reqid) != (t.reqs[k].conn, t.reqs[k].reqid))
  {
    if k in s.reqs {
      assert ServedOk(s, k);
    }
    var t := React(s, e);
    var id := (t.reqs[k].conn, t.reqs[k].reqid);
    if id in s.received {
      assert ReceivedOk(s, id);
    }
    assert s.nextExec in s.execs ==> ExecOk(s, s.nextExec);
    forall x | Running(s, x) && (s.execs[x].conn, s.execs[x].reqid) == id
      ensures id in s.received && s.received[id] == x
    {
      assert ExecOk(s, x);
    }
  }

  /** A service function that rejects with undefined leaves its caller without any answer. */
  lemma NullishIsNotAnswered(s: Server, k: ReqKey, c: ConnId)
    requires Initial(s)
    ensures
      var arrived := React(s, Arrives(k, c, "1", true, None, 0));
      var ended := ExecEnds(arrived, s.nextExec, Failed(Nullish));
      && Enabled(ended, Resumes(k, None))
      && React(ended, Resumes(k, None)).reqs[k].phase.Over?
      && React(ended, Resumes(k, None)).reqs[k].attempts == 0
  {
  }

  // -------------------------------------------------------- the object

  class RpcServer {
    var received: map<(ConnId, string), ExecId>
    var execs: map<ExecId, Exec>
    var reqs: map<ReqKey, Serving>
    var nextExec: nat

    ghost function View(): Server
      reads this
    {
      Server(received, execs, reqs, nextExec)
    }

    constructor ()
      ensures Initial(View()) && Inv(View())
    {
      received, execs, reqs, nextExec := map[], map[], map[], 0;
    }

    method SendResponse(k: ReqKey, r: Response, ended: Outcome)
      requires k in reqs
      modifies this`reqs
      ensures reqs == old(reqs)[k := Respond(old(reqs)[k], r, ended)]
    {
      var q := reqs[k];
      reqs := reqs[k := q.(phase := Sending, attempts := q.attempts + 1, response := Some(r), ended := Some(ended))];
    }

    method HandleFailure(k: ReqKey, f: Failure)
      requires k in reqs
      modifies this`reqs
      ensures reqs == old(reqs)[k := Catch(old(reqs)[k], f)]
    {
      match f
      case Nullish => reqs := reqs[k := reqs[k].(phase := Over, ended := Some(Failed(f)))];
      case RpcFailure(code) => SendResponse(k, Error(code), Failed(f));
      case Plain(rpcCode) =>
        SendResponse(k, Error(if rpcCode == "" then "INTERNAL" else rpcCode), Failed(f));
    }

    method JoinOrStart(k: ReqKey)
      requires k in reqs
      modifies this
      ensures View() == Enter(old(View()), k)
    {
      var q := reqs[k];
      var id := (q.conn, q.reqid);
      if id in received {
        reqs := reqs[k := q.(phase := Awaiting, exec := Some(received[id]))];
      } else {
        received := received[id := nextExec];
        execs := execs[nextExec := Exec(q.conn, q.reqid, None)];
        reqs := reqs[k := q.(phase := Awaiting, exec := Some(nextExec))];
        nextExec := nextExec + 1;
      }
    }

    method OnRequest(k: ReqKey, c: ConnId, reqid: string, known: bool, early: Option<Failure>, middlewares: nat)
      requires k !in reqs
      modifies this
      ensures View() == Arrive(old(View()), k, c, reqid, known, early, middlewares)
    {
      reqs := reqs[k := Serving(c, reqid, InMiddleware(middlewares), None, 0, None, None)];
      if !known {
        SendResponse(k, Error("NO_SUCH_RPC_SERVICE"), Failed(RpcFailure("NO_SUCH_RPC_SERVICE")));
      } else if early.Some? {
        HandleFailure(k, early.value);
      } else if middlewares == 0 {
        JoinOrStart(k);
      }
    }

    method OnMiddlewareEnd(k: ReqKey, failure: Option<Failure>)
      requires k in reqs && reqs[k].phase.InMiddleware? && reqs[k].phase.left > 0
      modifies this
      ensures View() == MiddlewareEnds(old(View()), k, failure)
    {
      if failure.Some? {
        HandleFailure(k, failure.value);
        return;
      }
      var left := reqs[k].phase.left - 1;
      reqs := reqs[k := reqs[k].(phase := InMiddleware(left))];
      if left == 0 {
        JoinOrStart(k);
      }
    }

    method OnExecutionEnd(x: ExecId, outcome: Outcome)
      requires x in execs
      modifies this
      ensures View() == ExecEnds(old(View()), x, outcome)
    {
      received := received - {(execs[x].conn, execs[x].reqid)};
      execs := execs[x := execs[x].(outcome := Some(outcome))];
    }

    method OnOutcome(k: ReqKey, invalid: Option<Failure>)
      requires k in reqs && reqs[k].exec.Some? && reqs[k].exec.value in execs && execs[reqs[k].exec.value].outcome.Some?
      modifies this
      ensures View() == Resume(old(View()), k, invalid)
    {
      var outcome := execs[reqs[k].exec.value].outcome.value;
      match outcome
      case Failed(f) => HandleFailure(k, f);
      case Returned(reply) =>
        if invalid.Some? {
          HandleFailure(k, invalid.value);
        } else {
          SendResponse(k, Reply(reply), outcome);
        }
    }

    /** The response is sent, or failed to be: the request is over either way. */
    method OnSendEnd(k: ReqKey, failure: Option<Failure>)
      requires k in reqs && reqs[k].phase.Sending?
      modifies this`reqs
      ensures View() == React(old(View()), SendIsOver(k, failure))
    {
      reqs := reqs[k := reqs[k].(phase := Over)];
    }
  }
}
