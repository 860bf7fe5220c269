/** How an agent fails over between its servers (src/agent/agent.js). */
module Failover {
  import opened Wrappers

  const MASTER_MAX_CONNECT_ATTEMPTS: nat := 20

  /** The servers' addresses; the failures since the last change or success; the master address; the
      default address of the router, where requests go; how the router writes an address; and, for the
      statements only, every address pinged so far. */
  datatype State = State(
    servers: seq<string>, attempts: nat, master: string, router: string, format: string -> string,
    pinged: seq<string>)

  datatype Call = Answered | Redirected(server: string) | Failed

  /** How the heartbeat call of a round turns out, and whether the ping of a change in it is answered. */
  datatype Beat = Beat(call: Call, pong: bool)

  function Without(servers: seq<string>, address: string): seq<string> {
    if servers == [] then []
    else if servers[0] == address then Without(servers[1..], address)
    else [servers[0]] + Without(servers[1..], address)
  }

  function Rotated(servers: seq<string>): seq<string>
    requires servers != []
  {
    servers[1..] + [servers[0]]
  }

  /** A new master is pinged first, unless the router goes there already; without an answer the change
      fails and leaves master and router alone. */
  function UpdateMaster(s: State, address: string, pong: bool): State {
    if address == s.router then s.(router := s.format(address))
    else if pong then
      s.(pinged := s.pinged + [address], master := address, router := s.format(address))
    else s.(pinged := s.pinged + [address])
  }

  function Reordered(servers: seq<string>, suggested: Option<string>): seq<string>
    requires servers != []
  {
    match suggested
    case None => Rotated(servers)
    case Some(a) => if a in servers then [a] + Without(servers, a) else servers
  }

  /** The address a change asks for: the suggested one, whether listed or not, or the new head. */
  function Target(servers: seq<string>, suggested: Option<string>): string
    requires servers != []
  {
    match suggested
    case None => Rotated(servers)[0]
    case Some(a) => a
  }

  /** The list changes and the counter starts over even if the new master does not answer; without any
      servers only the counter starts over. */
  function ServerChange(s: State, suggested: Option<string>, pong: bool): State {
    if s.servers == [] then s.(attempts := 0)
    else
      UpdateMaster(s.(servers := Reordered(s.servers, suggested), attempts := 0),
                   Target(s.servers, suggested), pong)
  }

  /** One round of the heartbeat loop; a round that fails, or tries to change the server, is an attempt. */
  function Round(s: State, b: Beat): State {
    if s.attempts > MASTER_MAX_CONNECT_ATTEMPTS then ServerChange(s, None, b.pong).(attempts := 1)
    else match b.call
      case Answered => s.(attempts := 0)
      case Redirected(server) => ServerChange(s, Some(server), b.pong).(attempts := 1)
      case Failed => s.(attempts := s.attempts + 1)
  }

  function Lower(c: char): char { if 'A' <= c <= 'Z' then c - 'A' + 'a' else c }

  predicate SameAddress(a: string, b: string) {
    |a| == |b| && forall i :: 0 <= i < |a| ==> Lower(a[i]) == Lower(b[i])
  }

  predicate Includes(servers: seq<string>, address: string) {
    exists i :: 0 <= i < |servers| && SameAddress(servers[i], address)
  }

  /** The base address always stays in the list; a list with the same addresses leaves the order alone. */
  function ListUpdate(s: State, list: seq<string>, base: string): State {
    var full := if Includes(list, base) then list else list + [base];
    if multiset(full) == multiset(s.servers) then s else s.(servers := full)
  }

  datatype Event = Beats(beat: Beat) | Updates(list: seq<string>)

  function Next(s: State, base: string, e: Event): State {
    match e
    case Beats(b) => Round(s, b)
    case Updates(list) => ListUpdate(s, list, base)
  }

  function Run(s: State, base: string, events: seq<Event>): State
    decreases |events|
  {
    if events == [] then s else Run(Next(s, base, events[0]), base, events[1..])
  }

  /** The counter never exceeds 21. */
  lemma {:induction false} AttemptsBounded(s: State, base: string, events: seq<Event>)
    requires s.attempts <= MASTER_MAX_CONNECT_ATTEMPTS + 1
    ensures Run(s, base, events).attempts <= MASTER_MAX_CONNECT_ATTEMPTS + 1
    decreases |events|
  {
    if events == [] {
    } else {
      AttemptsBounded(Next(s, base, events[0]), base, events[1..]);
    }
  }

  // ------------------------------------------------------ what changes keep

  lemma {:induction false} WithoutRemovesAll(servers: seq<string>, address: string)
    ensures forall x :: x in Without(servers, address) <==> x in servers && x != address
    ensures |Without(servers, address)| == |servers| - multiset(servers)[address]
  {
    if servers == [] {
    } else {
      assert servers == [servers[0]] + servers[1..];
      WithoutRemovesAll(servers[1..], address);
    }
  }

  /** A change without a suggestion keeps the list up to order; one with a suggestion keeps the set of
      addresses, and puts the suggested one first, once, exactly when the list has it. Pings do not
      matter for that. */
  lemma ServerChangeKeepsServers(s: State, suggested: Option<string>, pong: bool)
    ensures
      var t := ServerChange(s, suggested, pong).servers;
      && (forall x :: x in t <==> x in s.servers)
      && (suggested.None? ==> multiset(t) == multiset(s.servers))
      && (suggested.Some? && suggested.value in s.servers ==>
            t != [] && t[0] == suggested.value && multiset(t)[t[0]] == 1)
      && (suggested.Some? && suggested.value !in s.servers ==> t == s.servers)
  {
    match suggested
    case None =>
      if s.servers != [] {
        assert s.servers == [s.servers[0]] + s.servers[1..];
      }
    case Some(a) =>
      WithoutRemovesAll(s.servers, a);
      assert a !in Without(s.servers, a);
  }

  /** `t` is `s` after asking for `address` as the master: it was pinged unless the router went there
      already, requests go there exactly if that was so or the ping was answered, and otherwise master
      and router are as they were. */
  ghost predicate Asked(s: State, t: State, address: string, pong: bool) {
    && t.pinged == (if address == s.router then s.pinged else s.pinged + [address])
    && (t.router == s.format(address) <==> address == s.router || pong || s.router == s.format(address))
    && (t.router == s.router || t.router == s.format(address))
    && (t.master == address <==> s.master == address || (pong && address != s.router))
    && (t.master == s.master || t.master == address)
  }

  /** What a change does to the address in use, for any list, suggestion and outcome of the ping. */
  lemma ServerChangeAsks(s: State, suggested: Option<string>, pong: bool)
    requires s.servers != []
    ensures Asked(s, ServerChange(s, suggested, pong), Target(s.servers, suggested), pong)
    ensures suggested.None? ==> ServerChange(s, suggested, pong).servers[0] == Target(s.servers, suggested)
  {
  }

  /** A round on a counter of at most twenty: an answer resets the counter, a failure is counted. */
  lemma RoundsCount(s: State, pong: bool)
    requires s.attempts <= 20
    ensures Round(s, Beat(Answered, pong)) == s.(attempts := 0)
    ensures Round(s, Beat(Failed, pong)) == s.(attempts := s.attempts + 1)
  {
  }

  /** A redirect goes to the server that it names, listed or not: the agent asks for it as the master, it moves to
      the head exactly if it is listed, and the counter starts at 1. */
  lemma RedirectsAsk(s: State, server: string, pong: bool)
    requires s.attempts <= 20
    ensures
      var t := Round(s, Beat(Redirected(server), pong));
      && t.attempts == 1 && (forall x :: x in t.servers <==> x in s.servers)
      && (server in s.servers ==> t.servers[0] == server && multiset(t.servers)[server] == 1)
      && (server !in s.servers ==> t.servers == s.servers)
      && if s.servers == [] then t == s.(attempts := 1) else Asked(s, t, server, pong)
  {
    ServerChangeKeepsServers(s, Some(server), pong);
    if s.servers != [] {
      ServerChangeAsks(s, Some(server), pong);
    }
  }

  /** A round after more than twenty failures goes on to the next server, however the call would have turned out. */
  lemma LimitGoesOn(s: State, b: Beat)
    requires s.attempts > 20
    ensures
      var t := Round(s, b);
      t.attempts == 1
      && if s.servers == [] then t == s.(attempts := 1)
         else t.servers == s.servers[1..] + s.servers[..1] && Asked(s, t, t.servers[0], b.pong)
  {
    if s.servers != [] {
      assert s.servers[..1] == [s.servers[0]];
      ServerChangeAsks(s, None, b.pong);
    }
  }

  /** A change whose ping is not answered: the next server is at the head, and the old one in use. */
  lemma ChangeCanFail(format: string -> string)
    ensures
      var s := State(["a", "b"], 21, "a", "a", format, []);
      var t := Round(s, Beat(Failed, false));
      t.servers == ["b", "a"] && t.attempts == 1 && t.master == t.router == "a" && t.pinged == ["b"]
  {
    var s := State(["a", "b"], 21, "a", "a", format, []);
    assert Rotated(s.servers) == ["b", "a"];
  }

  /** The same character, or a letter and its other case. */
  predicate SameLetter(c: char, d: char) {
    || c == d
    || ('A' <= c <= 'Z' && d as int == c as int + 32)
    || ('A' <= d <= 'Z' && c as int == d as int + 32)
  }

  /** Addresses are the same exactly up to the case of their letters. */
  lemma CaseDoesNotMatter(a: string, b: string)
    ensures SameAddress(a, b) <==> |a| == |b| && forall i :: 0 <= i < |a| ==> SameLetter(a[i], b[i])
  {
    assert forall i :: 0 <= i < |a| == |b| ==> (Lower(a[i]) == Lower(b[i]) <==> SameLetter(a[i], b[i]));
  }

  /** After any update of the list the agent has the addresses of that list, and can still reach its base
      address. */
  lemma UpdateKeepsBase(s: State, list: seq<string>, base: string)
    ensures Includes(ListUpdate(s, list, base).servers, base)
    ensures multiset(ListUpdate(s, list, base).servers)
         == multiset(list) + (if Includes(list, base) then multiset{} else multiset{base})
    ensures multiset(ListUpdate(s, list, base).servers) == multiset(s.servers) ==> ListUpdate(s, list, base) == s
    ensures ListUpdate(s, list, base) == s || ListUpdate(s, list, base)
         == s.(servers := if Includes(list, base) then list else list + [base])
  {
    var full := if Includes(list, base) then list else list + [base];
    if !Includes(list, base) {
      assert SameAddress(full[|list|], base);
    }
    if multiset(full) == multiset(s.servers) {
      var i :| 0 <= i < |full| && SameAddress(full[i], base);
      assert full[i] in multiset(s.servers);
      var j :| 0 <= j < |s.servers| && s.servers[j] == full[i];
      assert SameAddress(s.servers[j], base);
    }
  }

  // ---------------------------------------------------------- fairness

  function Rounds(s: State, beats: seq<Beat>): State {
    if beats == [] then s else Round(Rounds(s, beats[..|beats| - 1]), beats[|beats| - 1])
  }

  lemma OneMoreRound(s: State, beats: seq<Beat>, n: nat)
    requires n < |beats|
    ensures Rounds(s, beats[..n + 1]) == Round(Rounds(s, beats[..n]), beats[n])
  {
    assert beats[..n + 1][..n] == beats[..n];
  }

  predicate AllFail(beats: seq<Beat>) {
    forall i :: 0 <= i < |beats| ==> beats[i].call == Failed
  }

  lemma {:induction false} RoundsAdd(s: State, a: seq<Beat>, b: seq<Beat>)
    ensures Rounds(s, a + b) == Rounds(Rounds(s, a), b)
  {
    if b == [] {
      assert a + b == a;
    } else {
      RoundsAdd(s, a, b[..|b| - 1]);
      assert (a + b)[..|a + b| - 1] == a + b[..|b| - 1];
    }
  }

  /** Up to the limit failures are only counted. */
  lemma {:induction false} FailuresCount(s: State, beats: seq<Beat>)
    requires AllFail(beats) && s.attempts + |beats| <= MASTER_MAX_CONNECT_ATTEMPTS + 1
    ensures Rounds(s, beats) == s.(attempts := s.attempts + |beats|)
  {
    if beats == [] {
    } else {
      FailuresCount(s, beats[..|beats| - 1]);
    }
  }

  /** The rounds until the k-th change. */
  function RoundsTo(attempts: nat, k: nat): nat
    requires attempts <= 21
  {
    if k == 0 then 0 else 22 - attempts + 21 * (k - 1)
  }

  /** The first change comes exactly in the round after the counter got to 21. */
  lemma FirstChange(s: State, beats: seq<Beat>)
    requires s.attempts <= 21 && AllFail(beats) && |beats| == 22 - s.attempts
    ensures Rounds(s, beats) == ServerChange(s, None, beats[|beats| - 1].pong).(attempts := 1)
    ensures Rounds(s, beats[..|beats| - 1]) == s.(attempts := 21)
  {
    FailuresCount(s, beats[..|beats| - 1]);
  }

  function RotatedBy(servers: seq<string>, k: nat): seq<string>
    requires k <= |servers|
  {
    servers[k..] + servers[..k]
  }

  lemma RotatedOnce(servers: seq<string>, k: nat)
    requires k < |servers|
    ensures Rotated(RotatedBy(servers, k)) == RotatedBy(servers, k + 1)
  {
    assert servers[k..] == [servers[k]] + servers[k + 1..];
    assert servers[..k + 1] == servers[..k] + [servers[k]];
    assert RotatedBy(servers, k) == [servers[k]] + (servers[k + 1..] + servers[..k]);
  }

  /** Rounds that end with a change. */
  predicate EndWithChange(s: State, beats: seq<Beat>, n: nat) {
    && n < |beats| && AllFail(beats)
    && var t := Rounds(s, beats[..n]);
       t.servers != [] && t.attempts <= 21 && |beats| == n + 22 - t.attempts
  }

  lemma OneMoreChange(s: State, beats: seq<Beat>, n: nat)
    requires EndWithChange(s, beats, n)
    ensures
      var t := Rounds(s, beats[..n]);
      && Rounds(s, beats) == ServerChange(t, None, beats[|beats| - 1].pong).(attempts := 1)
      && Rounds(s, beats[..|beats| - 1]) == t.(attempts := 21)
  {
    var done, coming := beats[..n], beats[n..];
    assert beats == done + coming && beats[..|beats| - 1] == done + coming[..|coming| - 1];
    RoundsAdd(s, done, coming);
    RoundsAdd(s, done, coming[..|coming| - 1]);
    FirstChange(Rounds(s, done), coming);
  }

  lemma ChangeRotates(s: State, beats: seq<Beat>, n: nat)
    requires EndWithChange(s, beats, n)
    ensures Rounds(s, beats).servers == Rotated(Rounds(s, beats[..n]).servers) && Rounds(s, beats).attempts == 1
  {
    OneMoreChange(s, beats, n);
  }

  lemma ChangeAsks(s: State, beats: seq<Beat>, n: nat)
    requires EndWithChange(s, beats, n)
    ensures Rounds(s, beats).servers != []
    ensures Asked(Rounds(s, beats[..|beats| - 1]), Rounds(s, beats),
                  Rounds(s, beats).servers[0], beats[|beats| - 1].pong)
  {
    OneMoreChange(s, beats, n);
    ServerChangeAsks(Rounds(s, beats[..n]), None, beats[|beats| - 1].pong);
  }

  /** Whatever the pings, failures change servers every 21 rounds, and the k-th change brings the k-th
      server of the list to the head. */
  lemma {:induction false} KthChange(s: State, beats: seq<Beat>, k: nat)
    requires s.attempts <= 21 && s.servers != [] && k <= |s.servers|
    requires AllFail(beats) && |beats| == RoundsTo(s.attempts, k)
    ensures Rounds(s, beats).servers == RotatedBy(s.servers, k)
    ensures Rounds(s, beats).attempts == (if k == 0 then s.attempts else 1)
    decreases k
  {
    if k == 0 {
      assert RotatedBy(s.servers, 0) == s.servers;
    } else {
      var n := RoundsTo(s.attempts, k - 1);
      KthChange(s, beats[..n], k - 1);
      ChangeRotates(s, beats, n);
      RotatedOnce(s.servers, k - 1);
    }
  }

  /** And it asks for that server as the master. */
  lemma KthChangeAsks(s: State, beats: seq<Beat>, k: nat)
    requires s.attempts <= 21 && s.servers != [] && 0 < k <= |s.servers|
    requires AllFail(beats) && |beats| == RoundsTo(s.attempts, k)
    ensures Asked(Rounds(s, beats[..|beats| - 1]), Rounds(s, beats),
                  RotatedBy(s.servers, k)[0], beats[|beats| - 1].pong)
  {
    var n := RoundsTo(s.attempts, k - 1);
    KthChange(s, beats[..n], k - 1);
    KthChange(s, beats, k);
    ChangeAsks(s, beats, n);
  }

  /** Among n servers each one is at the head of the list at some point of any 21 * n failed rounds in a
      row, whatever the pings. */
  lemma EveryServerIsTried(s: State, beats: seq<Beat>, i: nat) returns (rounds: nat)
    requires s.attempts <= 21 && i < |s.servers| && AllFail(beats) && |beats| == 21 * |s.servers|
    ensures rounds <= |beats|
    ensures Rounds(s, beats[..rounds]).servers != [] && Rounds(s, beats[..rounds]).servers[0] == s.servers[i]
  {
    rounds := RoundsTo(s.attempts, i);
    KthChange(s, beats[..rounds], i);
    assert RotatedBy(s.servers, i)[0] == s.servers[i];
  }

  /** And within one round more each one is asked for as the master: it is pinged unless it is in use,
      and it is in use afterwards exactly if it was or its ping was answered. */
  lemma EveryServerIsAsked(s: State, beats: seq<Beat>, i: nat) returns (rounds: nat)
    requires s.attempts <= 21 && i < |s.servers| && AllFail(beats) && |beats| == 21 * |s.servers| + 1
    ensures 0 < rounds <= |beats|
    ensures Asked(Rounds(s, beats[..rounds - 1]), Rounds(s, beats[..rounds]), s.servers[i], beats[rounds - 1].pong)
  {
    var k := if i == 0 then |s.servers| else i;
    rounds := RoundsTo(s.attempts, k);
    var tried := beats[..rounds];
    KthChangeAsks(s, tried, k);
    assert RotatedBy(s.servers, k)[0] == s.servers[i];
    assert tried[..|tried| - 1] == beats[..rounds - 1];
  }

  lemma UnansweredRound(s: State, b: Beat)
    requires s.format(s.router) == s.router && !b.pong
    ensures var t := Round(s, b);
            t.master == s.master && t.router == s.router && t.format == s.format
  {
  }

  /** While no ping is answered, no number of rounds moves the agent from the address it uses. */
  lemma {:induction false} UnansweredStays(s: State, beats: seq<Beat>)
    requires s.format(s.router) == s.router && forall i :: 0 <= i < |beats| ==> !beats[i].pong
    ensures
      var t := Rounds(s, beats);
      t.master == s.master && t.router == s.router && t.format == s.format
  {
    if beats == [] {
    } else {
      UnansweredStays(s, beats[..|beats| - 1]);
      UnansweredRound(Rounds(s, beats[..|beats| - 1]), beats[|beats| - 1]);
    }
  }

  // -------------------------------------------------------- the object

  class Agent {
    const baseAddress: string
    var servers: seq<string>
    const format: string -> string
    var connectAttempts: nat
    var masterAddress: string
    var router: string
    ghost var pinged: seq<string>

    ghost function View(): State
      reads this
    {
      State(servers, connectAttempts, masterAddress, router, format, pinged)
    }

    constructor (servers: seq<string>, address: string, format: string -> string)
      ensures View() == State(servers, 0, format(address), format(address), format, [])
      ensures baseAddress == format(address)
    {
      this.servers, this.format, connectAttempts, pinged := servers, format, 0, [];
      baseAddress, masterAddress, router := format(address), format(address), format(address);
    }

    /** False is the error of a ping that is not answered. */
    method UpdateMasterAddress(address: string, pong: bool) returns (ok: bool)
      modifies this
      ensures View() == UpdateMaster(old(View()), address, pong)
      ensures ok <==> address == old(router) || pong
    {
      ok := true;
      if address != router {
        pinged := pinged + [address];
        if !pong {
          return false;
        }
        masterAddress := address;
      }
      router := format(address);
    }

    method HandleServerChange(suggested: Option<string>, pong: bool) returns (ok: bool)
      modifies this
      ensures View() == ServerChange(old(View()), suggested, pong)
      ensures ok <==> old(servers) == [] || Target(old(servers), suggested) == old(router) || pong
    {
      connectAttempts := 0;
      if servers == [] {
        return true;
      }
      var newAddress;
      match suggested {
        case None =>
          servers := servers[1..] + [servers[0]];
          newAddress := servers[0];
        case Some(address) =>
          var found := RemoveAll(address);
          if found {
            servers := [address] + servers;
          }
          newAddress := address;
      }
      ok := UpdateMasterAddress(newAddress, pong);
    }

    method RemoveAll(address: string) returns (found: bool)
      modifies this`servers
      ensures servers == Without(old(servers), address) && (found <==> address in old(servers))
      ensures !found ==> servers == old(servers)
    {
      var kept: seq<string> := [];
      found := false;
      for i := 0 to |servers|
        invariant Without(servers, address) == kept + Without(servers[i..], address)
        invariant found <==> address in servers[..i]
        invariant !found ==> kept == servers[..i]
      {
        assert servers[i..][1..] == servers[i + 1..];
        if servers[i] == address {
          found := true;
        } else {
          kept := kept + [servers[i]];
        }
      }
      servers := kept;
    }

    /** One turn of the loop; true if its call was answered. */
    method HeartbeatRound(beat: Beat) returns (done: bool)
      modifies this
      ensures View() == Round(old(View()), beat)
      ensures done ==> connectAttempts == 0
    {
      done := false;
      if connectAttempts > MASTER_MAX_CONNECT_ATTEMPTS {
        var ok := HandleServerChange(None, beat.pong);
        connectAttempts := connectAttempts + 1;
      } else {
        match beat.call {
          case Answered =>
            connectAttempts := 0;
            done := true;
          case Redirected(server) =>
            var ok := HandleServerChange(Some(server), beat.pong);
            connectAttempts := connectAttempts + 1;
          case Failed => connectAttempts := connectAttempts + 1;
        }
      }
    }

    /** The heartbeat loop, given how each call will turn out; it ends with the first one answered. */
    method DoHeartbeat(beats: seq<Beat>) returns (done: bool, rounds: nat)
      modifies this
      ensures rounds <= |beats| && View() == Rounds(old(View()), beats[..rounds])
      ensures done ==> connectAttempts == 0
      ensures !done ==> rounds == |beats|
    {
      done, rounds := false, 0;
      while !done && rounds < |beats|
        invariant rounds <= |beats| && View() == Rounds(old(View()), beats[..rounds])
        invariant done ==> connectAttempts == 0
        decreases |beats| - rounds, !done
      {
        OneMoreRound(old(View()), beats, rounds);
        done := HeartbeatRound(beats[rounds]);
        rounds := rounds + 1;
      }
    }

    method UpdateServersList(list: seq<string>)
      modifies this`servers
      ensures View() == ListUpdate(old(View()), list, baseAddress)
    {
      var full := list;
      if !Includes(list, baseAddress) {
        full := full + [baseAddress];
      }
      if multiset(full) != multiset(servers) {
        servers := full;
      }
    }
  }
}
