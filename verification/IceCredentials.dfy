/** Credentials in STUN packets between two ICE peers (src/rpc/ice.js). Texts are UTF-8 bytes. */
module IceCredentials {
  import opened Wrappers
  import opened Bytes
  import opened Stun

  const COLON: byte := 58
  const ONE: Data := [49]

  const LOWER: string := "abcdefghijklmnopqrstuvwxyz"
  const UPPER: string := "ABCDEFGHIJKLMNOPQRTTUVWXYZ"
  const DIGITS: string := "0123456789+/"
  const CHAR_POOL: string := LOWER + UPPER + DIGITS

  datatype Credentials = Credentials(ufrag: Data, pwd: Data)

  /** The address a packet carries: the receiver's, as the sender sees it. */
  datatype Endpoint = Endpoint(port: nat, ip: Data)

  predicate IsIpv4(e: Endpoint) { e.port < U16 && |e.ip| == 4 }

  // ------------------------------------------------- generated fragments

  lemma PoolHasNoColon(i: nat)
    ensures |CHAR_POOL| == 64
    ensures i < 64 ==> CHAR_POOL[i] as int < 128 && CHAR_POOL[i] as int != COLON
  {
    assert forall j :: 0 <= j < |LOWER| ==> 'a' <= LOWER[j] <= 'z';
    assert forall j :: 0 <= j < |UPPER| ==> 'A' <= UPPER[j] <= 'Z';
    assert forall j :: 0 <= j < |DIGITS| ==> '+' <= DIGITS[j] <= '9';
  }

  /** The pool character picked by a random byte. */
  function PoolChar(random: byte): (r: byte)
    ensures r != COLON
  {
    PoolHasNoColon(random % 64);
    CHAR_POOL[random % 64] as int
  }

  /** One pool character per random byte. */
  function PoolText(bytes: Data): (r: Data)
    ensures |r| == |bytes| && COLON !in r
  {
    if bytes == [] then [] else [PoolChar(bytes[0])] + PoolText(bytes[1..])
  }

  /** Which character each byte picks. */
  lemma {:induction false} PoolTextAt(bytes: Data, i: nat)
    requires i < |bytes|
    ensures PoolText(bytes)[i] == CHAR_POOL[bytes[i] % 64] as int
  {
    if i == 0 {
    } else {
      PoolTextAt(bytes[1..], i - 1);
    }
  }

  lemma {:induction false} PoolTextAppend(a: Data, b: Data)
    ensures PoolText(a + b) == PoolText(a) + PoolText(b)
  {
    if a == [] {
      assert a + b == b;
    } else {
      assert (a + b)[1..] == a[1..] + b;
      PoolTextAppend(a[1..], b);
    }
  }

  method RandomCryptoString(bytes: Data) returns (str: Data)
    ensures str == PoolText(bytes)
  {
    str := [];
    for i := 0 to |bytes|
      invariant str == PoolText(bytes[..i])
    {
      var next := PoolChar(bytes[i]);
      assert bytes[..i + 1] == bytes[..i] + [bytes[i]];
      PoolTextAppend(bytes[..i], [bytes[i]]);
      str := str + [next];
    }
    assert bytes[..|bytes|] == bytes;
  }

  // --------------------------------------------------- credential check

  /** `split(':')`. */
  function Split(s: Data): (r: seq<Data>)
    ensures r != []
  {
    if s == [] then [[]]
    else if s[0] == COLON then [[]] + Split(s[1..])
    else
      var r := Split(s[1..]);
      [[s[0]] + r[0]] + r[1..]
  }

  lemma {:induction false} SplitFirst(u: Data, rest: Data)
    requires COLON !in u
    ensures Split(u) == [u]
    ensures Split(u + [COLON] + rest) == [u] + Split(rest)
  {
    if u == [] {
      assert u + [COLON] + rest == [COLON] + rest;
    } else {
      SplitFirst(u[1..], rest);
      var s := u + [COLON] + rest;
      assert s[1..] == u[1..] + [COLON] + rest;
      assert u == [u[0]] + u[1..];
    }
  }

  /** The first fragment is what stands before the first colon. */
  lemma {:induction false} FirstFragment(s: Data)
    ensures COLON !in Split(s)[0]
    ensures |Split(s)| == 1 ==> s == Split(s)[0]
    ensures |Split(s)| > 1 ==>
      exists rest :: s == Split(s)[0] + [COLON] + rest && Split(s)[1..] == Split(rest)
  {
    if s == [] {
    } else if s[0] == COLON {
      assert s == [] + [COLON] + s[1..];
    } else {
      FirstFragment(s[1..]);
      var r := Split(s[1..]);
      assert s == [s[0]] + s[1..];
      if |r| > 1 {
        var rest :| s[1..] == r[0] + [COLON] + rest && r[1..] == Split(rest);
        assert s == ([s[0]] + r[0]) + [COLON] + rest;
      }
    }
  }

  /** `_check_stun_credentials`; the peer's fragment is unknown until it is signalled. */
  predicate CheckCredentials(local: Credentials, peerUfrag: Option<Data>,
                             username: Option<Data>, password: Option<Data>) {
    && username.Some? && username.value != []
    && var frags := Split(username.value);
    && frags[0] == local.ufrag
    && (if |frags| > 1 then Some(frags[1]) else None) == peerUfrag
    && password == Some(local.pwd)
  }

  function Username(toUfrag: Data, fromUfrag: Data): Data { toUfrag + [COLON] + fromUfrag }

  /** `base`, or `base` followed by a colon and anything. */
  predicate IsOrContinues(s: Data, base: Data) {
    s == base || (|base| < |s| && s[..|base|] == base && s[|base|] == COLON)
  }

  lemma PassingContinues(local: Credentials, peer: Data, username: Data, password: Option<Data>)
    requires COLON !in peer && CheckCredentials(local, Some(peer), Some(username), password)
    ensures IsOrContinues(username, Username(local.ufrag, peer))
  {
    FirstFragment(username);
    var rest :| username == Split(username)[0] + [COLON] + rest && Split(username)[1..] == Split(rest);
    assert Split(rest)[0] == Split(username)[1..][0] == peer;
    FirstFragment(rest);
    if |Split(rest)| > 1 {
      var more :| rest == Split(rest)[0] + [COLON] + more && Split(rest)[1..] == Split(more);
      assert username == Username(local.ufrag, peer) + [COLON] + more;
    }
  }

  lemma ContinuingPasses(local: Credentials, peer: Data, username: Data)
    requires COLON !in local.ufrag && COLON !in peer && IsOrContinues(username, Username(local.ufrag, peer))
    ensures CheckCredentials(local, Some(peer), Some(username), Some(local.pwd))
  {
    var base := Username(local.ufrag, peer);
    if username == base {
      SplitFirst(local.ufrag, peer);
      SplitFirst(peer, []);
    } else {
      var more := username[|base| + 1..];
      assert username == local.ufrag + [COLON] + (peer + [COLON] + more);
      SplitFirst(local.ufrag, peer + [COLON] + more);
      SplitFirst(peer, more);
    }
  }

  /** Exactly which usernames pass. Only two fragments are compared, so beside the username the
      peer writes, every continuation of it after another colon passes too. */
  lemma PassesExactly(local: Credentials, peer: Data, username: Data, password: Option<Data>)
    requires COLON !in local.ufrag && COLON !in peer
    ensures CheckCredentials(local, Some(peer), Some(username), password)
       <==> password == Some(local.pwd) && IsOrContinues(username, local.ufrag + [COLON] + peer)
  {
    if CheckCredentials(local, Some(peer), Some(username), password) {
      PassingContinues(local, peer, username, password);
    }
    if IsOrContinues(username, Username(local.ufrag, peer)) {
      ContinuingPasses(local, peer, username);
    }
  }

  /** Before the peer's fragment is known, only the bare own fragment passes. */
  lemma PassesUnsignalled(local: Credentials, username: Data, password: Option<Data>)
    requires COLON !in local.ufrag
    ensures CheckCredentials(local, None, Some(username), password)
       <==> password == Some(local.pwd) && username == local.ufrag && username != []
  {
    FirstFragment(username);
    SplitFirst(local.ufrag, []);
  }

  /** A username with a third fragment is accepted although no peer ever writes it. */
  lemma ContinuationAccepted()
    ensures var local := Credentials([97], [98]);
            && Username(local.ufrag, [99]) != [97, COLON, 99, COLON, 100]
            && CheckCredentials(local, Some([99]), Some([97, COLON, 99, COLON, 100]), Some(local.pwd))
  {
    PassesExactly(Credentials([97], [98]), [99], [97, COLON, 99, COLON, 100], Some([98]));
  }

  // ------------------------------------------------------- peer packets

  function Text(kind: nat, bytes: Data): Option<Attr>
    requires IsText(kind)
  {
    Some(Attr(kind, Raw(bytes)))
  }

  function RoleAttr(controlling: bool): Option<Attr> {
    Text(if controlling then ICE_CONTROLLING else ICE_CONTROLLED, ONE)
  }

  function CredentialAttrs(from: Credentials, to: Credentials, seen: Endpoint): seq<Option<Attr>>
    requires IsIpv4(seen)
  {
    [Text(USERNAME, Username(to.ufrag, from.ufrag)), Text(PASSWORD, to.pwd),
     Some(Attr(XOR_MAPPED_ADDRESS, Address(seen.port, seen.ip)))]
  }

  /** `_make_stun_request_response`. */
  function PeerAttrs(controlling: bool, useCandidate: bool, from: Credentials, to: Credentials, seen: Endpoint):
    seq<Option<Attr>>
    requires IsIpv4(seen)
  {
    [RoleAttr(controlling), if useCandidate then Text(USE_CANDIDATE, ONE) else None] + CredentialAttrs(from, to, seen)
  }

  /** The packet of `_activate_session`: the same attributes, the nomination first. */
  function ActivateAttrs(controlling: bool, from: Credentials, to: Credentials, seen: Endpoint): seq<Option<Attr>>
    requires IsIpv4(seen)
  {
    [Text(USE_CANDIDATE, ONE), RoleAttr(controlling)] + CredentialAttrs(from, to, seen)
  }

  /** Decoding one more encoded attribute adds it to the map. */
  lemma MapStep(m: AttrsMap, a: Option<Attr>, rest: seq<Option<Attr>>)
    requires a.Some? ==> Supported(a.value)
    ensures AllSupported([a] + rest) <==> AllSupported(rest)
    ensures |Expected([a] + rest)| == (if a.Some? then 1 else 0) + |Expected(rest)|
    ensures WithAttrs(m, Expected([a] + rest))
         == WithAttrs(if a.Some? then WithAttr(m, Decoded(a.value.kind, AttrLen(a.value), a.value.value)) else m,
                      Expected(rest))
  {
    assert ([a] + rest)[1..] == rest;
  }

  lemma CredentialMap(m: AttrsMap, from: Credentials, to: Credentials, seen: Endpoint)
    requires IsIpv4(seen)
    ensures
      var attrs := CredentialAttrs(from, to, seen);
      && AllSupported(attrs) && |Expected(attrs)| == 3
      && WithAttrs(m, Expected(attrs))
         == m.(username := Some(Username(to.ufrag, from.ufrag)), password := Some(to.pwd),
               address := Some(Address(seen.port, seen.ip)))
  {
    var attrs := CredentialAttrs(from, to, seen);
    assert attrs == [attrs[0]] + ([attrs[1]] + ([attrs[2]] + []));
    var m1 := m.(username := Some(Username(to.ufrag, from.ufrag)));
    MapStep(m, attrs[0], [attrs[1]] + ([attrs[2]] + []));
    MapStep(m1, attrs[1], [attrs[2]] + []);
    MapStep(m1.(password := Some(to.pwd)), attrs[2], []);
  }

  /** What the receiver's attribute map holds, for either packet. */
  function SentMap(controlling: bool, useCandidate: bool, from: Credentials, to: Credentials, seen: Endpoint):
    AttrsMap {
    AttrsMap(Some(Address(seen.port, seen.ip)), Some(Username(to.ufrag, from.ufrag)), Some(to.pwd),
             if useCandidate then Some(ONE) else None,
             if controlling then None else Some(ONE), if controlling then Some(ONE) else None)
  }

  lemma PeerMap(controlling: bool, useCandidate: bool, from: Credentials, to: Credentials, seen: Endpoint)
    requires IsIpv4(seen)
    ensures
      var attrs, activate :=
          PeerAttrs(controlling, useCandidate, from, to, seen), ActivateAttrs(controlling, from, to, seen);
      && AllSupported(attrs) && |Expected(attrs)| <= 5
      && GetAttrsMap(Expected(attrs)) == SentMap(controlling, useCandidate, from, to, seen)
      && AllSupported(activate) && |Expected(activate)| <= 5
      && GetAttrsMap(Expected(activate)) == SentMap(controlling, true, from, to, seen)
  {
    var creds := CredentialAttrs(from, to, seen);
    var role, use := RoleAttr(controlling), if useCandidate then Text(USE_CANDIDATE, ONE) else None;
    var nominate := Text(USE_CANDIDATE, ONE);
    assert PeerAttrs(controlling, useCandidate, from, to, seen) == [role] + ([use] + creds);
    assert ActivateAttrs(controlling, from, to, seen) == [nominate] + ([role] + creds);
    var m := SentMap(controlling, useCandidate, from, to, seen).(username := None, password := None, address := None);
    var roleOnly := m.(useCandidate := None);
    MapStep(NO_ATTRS, role, [use] + creds);
    MapStep(roleOnly, use, creds);
    CredentialMap(m, from, to, seen);
    MapStep(NO_ATTRS, nominate, [role] + creds);
    MapStep(NO_ATTRS.(useCandidate := Some(ONE)), role, creds);
    CredentialMap(m.(useCandidate := Some(ONE)), from, to, seen);
  }

  /** Sizes the decoder accepts. */
  predicate Fits(from: Credentials, to: Credentials) {
    && |to.ufrag| + 1 + |from.ufrag| <= MAX_ATTR_LENGTH && |to.pwd| <= MAX_ATTR_LENGTH
    && 56 + Align(|to.ufrag| + 1 + |from.ufrag|) + Align(|to.pwd|) <= MAX_PACKET
  }

  predicate Truthy(v: Option<Data>) { v.Some? && v.value != [] }

  /** Both peers in the same role. */
  predicate RoleConflict(m: AttrsMap, controlling: bool) {
    (Truthy(m.iceControlling) && controlling) || (Truthy(m.iceControlled) && !controlling)
  }

  predicate Accepts(local: Credentials, peerUfrag: Option<Data>, controlling: bool, m: AttrsMap) {
    CheckCredentials(local, peerUfrag, m.username, m.password) && !RoleConflict(m, controlling)
  }

  lemma SpanStep(a: Option<Attr>, rest: seq<Option<Attr>>)
    ensures AttrsLen([a] + rest) == AttrSpan(a) + AttrsLen(rest)
    ensures ShortEnough([a] + rest)
       <==> (a.Some? ==> AttrLen(a.value) <= MAX_ATTR_LENGTH) && ShortEnough(rest)
  {
    assert ([a] + rest)[1..] == rest;
  }

  lemma CredentialSpan(from: Credentials, to: Credentials, seen: Endpoint)
    requires IsIpv4(seen)
    ensures var attrs := CredentialAttrs(from, to, seen);
            && AttrsLen(attrs) == 20 + Align(|to.ufrag| + 1 + |from.ufrag|) + Align(|to.pwd|)
            && (ShortEnough(attrs) <==> |to.ufrag| + 1 + |from.ufrag| <= MAX_ATTR_LENGTH && |to.pwd| <= MAX_ATTR_LENGTH)
  {
    var attrs := CredentialAttrs(from, to, seen);
    assert attrs == [attrs[0]] + ([attrs[1]] + ([attrs[2]] + []));
    SpanStep(attrs[0], [attrs[1]] + ([attrs[2]] + []));
    SpanStep(attrs[1], [attrs[2]] + []);
    SpanStep(attrs[2], []);
  }

  lemma PeerSpan(controlling: bool, useCandidate: bool, from: Credentials, to: Credentials, seen: Endpoint)
    requires IsIpv4(seen) && Fits(from, to)
    ensures
      var attrs, activate :=
          PeerAttrs(controlling, useCandidate, from, to, seen), ActivateAttrs(controlling, from, to, seen);
      && HEADER_LENGTH + AttrsLen(attrs) <= MAX_PACKET && ShortEnough(attrs)
      && HEADER_LENGTH + AttrsLen(activate) <= MAX_PACKET && ShortEnough(activate)
  {
    var creds := CredentialAttrs(from, to, seen);
    var role, use := RoleAttr(controlling), if useCandidate then Text(USE_CANDIDATE, ONE) else None;
    var nominate := Text(USE_CANDIDATE, ONE);
    assert PeerAttrs(controlling, useCandidate, from, to, seen) == [role] + ([use] + creds);
    assert ActivateAttrs(controlling, from, to, seen) == [nominate] + ([role] + creds);
    CredentialSpan(from, to, seen);
    SpanStep(use, creds);
    SpanStep(role, [use] + creds);
    SpanStep(role, creds);
    SpanStep(nominate, [role] + creds);
  }

  /** What an honest peer sends, encoded and decoded, passes the other side's credential and role
      checks, and brings the nomination and the address as they were sent. */
  lemma HonestPeerAccepted(code: nat, controlling: bool, useCandidate: bool,
                           from: Credentials, to: Credentials, seen: Endpoint, tid: Data)
    requires COLON !in from.ufrag && COLON !in to.ufrag && Fits(from, to) && IsIpv4(seen) && |tid| == 12
    ensures
      var attrs := PeerAttrs(controlling, useCandidate, from, to, seen);
      && AttrsLen(attrs) < U16
      && var d := DecodeAttrs(Packet(code, attrs, tid));
      && d.Ok? && GetAttrsMap(d.value) == SentMap(controlling, useCandidate, from, to, seen)
      && Accepts(to, Some(from.ufrag), !controlling, GetAttrsMap(d.value))
    ensures
      var attrs := ActivateAttrs(controlling, from, to, seen);
      && AttrsLen(attrs) < U16
      && var d := DecodeAttrs(Packet(code, attrs, tid));
      && d.Ok? && GetAttrsMap(d.value) == SentMap(controlling, true, from, to, seen)
      && Accepts(to, Some(from.ufrag), !controlling, GetAttrsMap(d.value))
  {
    PeerMap(controlling, useCandidate, from, to, seen);
    PeerSpan(controlling, useCandidate, from, to, seen);
    PacketRoundTrip(code, PeerAttrs(controlling, useCandidate, from, to, seen), tid);
    PacketRoundTrip(code, ActivateAttrs(controlling, from, to, seen), tid);
    PassesExactly(to, from.ufrag, Username(to.ufrag, from.ufrag), Some(to.pwd));
  }

  /** A peer takes the role of the other side for its own exactly when both have the same one. */
  lemma RolesConflict(code: nat, controlling: bool, useCandidate: bool,
                      from: Credentials, to: Credentials, seen: Endpoint, tid: Data, own: bool)
    requires COLON !in from.ufrag && COLON !in to.ufrag && Fits(from, to) && IsIpv4(seen) && |tid| == 12
    ensures
      var attrs, activate :=
          PeerAttrs(controlling, useCandidate, from, to, seen), ActivateAttrs(controlling, from, to, seen);
      && AttrsLen(attrs) < U16 && AttrsLen(activate) < U16
      && var d, e := DecodeAttrs(Packet(code, attrs, tid)), DecodeAttrs(Packet(code, activate, tid));
         && d.Ok? && (RoleConflict(GetAttrsMap(d.value), own) <==> own == controlling)
         && e.Ok? && (RoleConflict(GetAttrsMap(e.value), own) <==> own == controlling)
  {
    HonestPeerAccepted(code, controlling, useCandidate, from, to, seen, tid);
  }

  /** Its own packets come back to no peer: they pass only if both own the same fragment. */
  lemma OwnPacketRejected(from: Credentials, to: Credentials)
    requires COLON !in from.ufrag && COLON !in to.ufrag && from.ufrag != to.ufrag
    ensures !CheckCredentials(from, Some(to.ufrag), Some(Username(to.ufrag, from.ufrag)), Some(to.pwd))
  {
    SplitFirst(to.ufrag, from.ufrag);
    assert Username(to.ufrag, from.ufrag) == to.ufrag + [COLON] + from.ufrag;
  }

  /** Fragments and passwords of the default length, as they are generated, always fit. */
  lemma DefaultCredentialsFit(a: Data, b: Data, pa: Data, pb: Data)
    requires |a| == |b| == |pa| == |pb| == 32
    ensures
      var from, to := Credentials(PoolText(a), PoolText(pa)), Credentials(PoolText(b), PoolText(pb));
      Fits(from, to) && COLON !in from.ufrag && COLON !in to.ufrag
  {
    assert Align(65) == 68 && Align(32) == 32;
  }
}
