# Verification of the RPC stack

A Dafny model of the node-to-node RPC stack under `src/rpc`, and of three smaller stateful pieces of the
same code base: the blob block-list translator, the agent's server failover, and the workers that move
old objects between buckets. `dafny verify dfyconfig.toml` checks all of it.

The pattern is the same in every part. A datatype holds the state as a value; functions say what each
handler does to it, with the branches, edge cases and constants of the source; lemmas prove what every
step keeps, and what follows for whole runs. Where the source updates objects in place, a class has the
same fields and its methods, loops included, are proved against those functions (`ensures View() == F(old(View()))`).
Code between two awaits is one step, and the steps of any number of requests, sessions or workers interleave.

- `Bytes`, `Buffers`: big-endian fields, XOR masking, decimal text; lists of fragments consumed in place.
- `RpcMessage`, `RpcRequest`, `RpcHttp`: the wire format. A message with any named attachments survives any
  re-fragmentation of its bytes, and so does one whose prefix travels in HTTP headers, attachment by attachment.
- `Stun`: the codec of RFC 5389 (sections 6, 15, 15.1, 15.2). The decoder gives back what was encoded exactly
  when its limits allow it; the write pass over the array fills exactly the length pass's size.
- `IceCredentials`: what two honest peers put in their packets, and exactly which packets pass the check.
- `IceSessions`, `IceRuns`, `IceHandlers`: the session table of one peer, safety over every run, and what each
  packet does, by its contents.
- `IceAgreement`, `IceAgreed`, `IceTurnedAway`: two peers and a network that loses, duplicates and reorders packets.
  `sent` keeps every packet ever sent, and any of them may arrive at any time, any number of times. Agreement holds in
  every run under stable addresses, is reached in some, and fails in some run without them.
- `IceObjects`: sessions, peer and connection as objects that close each other through their listeners, and the
  peer's handlers on them.
- `RpcBaseConn`: the connection state machine. `RpcClient`, `RpcClientRuns`, `RpcObjects`: pool, requests,
  closing, reconnecting. `RpcCalls`: each step of a request. `RpcKeepAlive`: pings. `Backoff`, `RpcReconnects`: waits.
  `RpcServer`: de-duplication and answers.
- `BlobTranslator`, `BlobStore`: processing a block list, and blobs against plain lists of blocks.
- `MoveWorkers`, `Failover`: the workers' shared list, and the agent's list of servers.

Where the code differs from what its documentation or its names suggest, the model follows the code; lemmas
give the exact condition, or a concrete input, or both:

- `ice.js` compares only the first two fragments of a username, so continuations of the right username pass too
  (`IceCredentials.PassesExactly`, `IceCredentials.ContinuationAccepted`).
- A nomination is answered even when candidate filtering left no session for it, and then the two peers disagree
  (`IceAgreement.AnswerWithoutSession`, `IceTurnedAway.DisagreementIsPossible`).
- A closed peer takes new sessions like an open one, though none gets ready or active
  (`IceRuns.ClosedPeerTakesSessions`, `IceRuns.RunSafety`).
- A short list of fragments is padded with zeros only if it has more than one fragment, so the bytes depend on the
  fragmentation (`Buffers.FragmentationIndependent`).
- `get_tid_field` reads four of the twelve bytes of the transaction id that section 6 of RFC 5389 defines, so ids
  that agree there are taken for the same (`Stun.KeysCollide`, `Stun.DifferentIdsCollide`).
- A service that rejects with null or undefined is not answered: the catch block itself throws
  (`RpcServer.AnsweredOnce`, `RpcServer.NullishIsNotAnswered`).
- A staged block hides a committed one of the same id even from an entry of type 'committed', which is then rejected
  (`BlobTranslator.CommittedNeedsUnstaged`, `BlobTranslator.StagedHidesCommitted`).
- While disconnected, a reconnect arms the timer of a connection that was closed at once
  (`RpcReconnects.CloseArmsClosed`, `RpcReconnects.ClosedYetWaiting`).
- A reconnect timer can be armed again during an attempt, and runs on after its success
  (`RpcReconnects.ArmedWaits`, `RpcReconnects.SuccessLeavesTimers`, `RpcReconnects.ArmedWithoutBackoff`).
- A server change whose ping is not answered rotates the list and leaves the address in use
  (`Failover.ServerChangeAsks`, `Failover.ChangeCanFail`).
- With no workers nothing is moved (`MoveWorkers.EndIsPermutation`), and moving within one bucket deletes the object
  (`MoveWorkers.MoveKeepsIffDifferent`).

## Model

| member | source | states |
|---|---|---|
| `Buffers.ExtractJoinedBytes` | src/util/buffer_utils.js:50-79 | with enough bytes, exactly the first len bytes are taken and the rest stays, however the list is fragmented; a short list is taken whole and padded only if fragmented |
| `Buffers.FragmentationIndependent` | src/util/buffer_utils.js:37-79 | the extracted bytes depend on the content alone if and only if the list holds enough of them |
| `Buffers.ExtractFront` | src/util/buffer_utils.js:50-79 | a known front of the bytes is cut off exactly, whatever the fragments |
| `Buffers.BufferList.Extract` | src/util/buffer_utils.js:50-67 | the loop that shifts and slices the list in place takes and leaves exactly the specified fragments |
| `Buffers.BufferList.ExtractJoin` | src/util/buffer_utils.js:73-76 | joined result and remaining list after consuming the list in place |
| `Bytes.MaskedDataBack` | src/rpc/stun.js:451-473 | masking address bytes twice with the same key gives them back |
| `Bytes.Masked16Back` | src/rpc/stun.js:451-533 | masking a port twice gives it back |
| `Bytes.XorBits` | src/rpc/stun.js:451-533 | masking is the bitwise exclusive or: every bit tells whether the bits of value and key differ |
| `Bytes.DecimalPlaces` | src/rpc/rpc_http.js:216-233 | header text is read with its most significant digit first |
| `Bytes.DecimalRoundTrip` | src/rpc/rpc_http.js:216-233 | numbers written as header text parse back to the same number |
| `RpcMessage.VersionCheckedByteByByte` | src/rpc/rpc_message.js:91-104 | a version passes exactly when its four bytes are the magic and three zeros, and each of the four errors is given exactly when its own byte is the first wrong one |
| `RpcMessage.EncodedBytes` | src/rpc/rpc_message.js:73-85 | an encoded message is its 8-byte prefix, its body and its attached bytes, in this order |
| `RpcMessage.OnWire` | src/rpc/rpc_message.js:73-85 | the bytes 0xba, 0, 0, 0, the body's length with its high byte first, the body, then the attached bytes; encoding fails if and only if four bytes cannot hold that length |
| `RpcMessage.VersionRefused` | src/rpc/rpc_message.js:91-104 | decoding refuses a message for the first of its four version bytes that is wrong, each with its own error, if and only if it is |
| `RpcMessage.DecodeSplits` | src/rpc/rpc_message.js:91-109 | decoding cuts prefix, body and attachments at the right bytes of any fragmentation, or reports bad JSON |
| `RpcMessage.MessageRoundTrip` | src/rpc/rpc_message.js:73-109 | encode, re-split into any fragments, decode: same body, same attached bytes |
| `RpcMessage.DecodeList` | src/rpc/rpc_message.js:91-109 | decoding in place consumes prefix and body and leaves the message's buffers, with each error case |
| `RpcRequest.TakenBack` | src/rpc/rpc_request.js:139-145 | attachments cut off in order of their descriptors come back under their names with their bytes |
| `RpcRequest.RequestRoundTrip` | src/rpc/rpc_request.js:79-146 | a request's id, route, non-empty token, parameters and named attachments survive encoding, any re-fragmentation, decoding and _set_request; an empty token arrives as none |
| `RpcRequest.ResponseRoundTrip` | src/rpc/rpc_request.js:103-171 | any reply with its attachments survives encoding, any re-fragmentation, decoding and _set_response, and any error keeps its code and data, and its message or else its code or a fixed text in place of it |
| `RpcRequest.AttachesToValues` | src/rpc/rpc_request.js:138-168 | attaching is an error if and only if there are attachments and no value, and leaves the value as it is |
| `RpcRequest.LastNameCounts` | src/rpc/rpc_request.js:139-145 | of attachments with one name the last one counts, and no other name is touched |
| `RpcRequest.Request.TakeAttachments` | src/rpc/rpc_request.js:139-145 | the loop drains the message's buffers exactly by the descriptors, a repeated name keeping its place |
| `RpcRequest.Request.SetRequest` | src/rpc/rpc_request.js:131-146 | the fields a received request sets, and when attaching fails |
| `RpcRequest.Request.SetResponse` | src/rpc/rpc_request.js:148-171 | a response settles a request once; a second one changes neither request nor buffers |
| `RpcHttp.PrefixTravels` | src/rpc/rpc_http.js:216-233 | any eight prefix bytes written into the headers are rebuilt exactly |
| `RpcHttp.HttpRoundTrip` | src/rpc/rpc_http.js:216-233 | a message whose prefix goes through the headers decodes to the same body and bytes whatever the receiver reads |
| `RpcHttp.HttpRequestRoundTrip` | src/rpc/rpc_http.js:216-233 | a request posted over HTTP keeps its id, route, non-empty token, parameters and every attachment under its name, whatever fragments the receiver reads |
| `RpcHttp.HttpResponseRoundTrip` | src/rpc/rpc_http.js:216-233 | any reply in the HTTP response keeps its value and every attachment under its name, and any error its code, data and message or what stands for it |
| `RpcHttp.ShortHasNoPrefix` | src/rpc/rpc_http.js:229-233 | extracting the prefix fails if and only if there are fewer than eight bytes in at most one fragment |
| `RpcHttp.BareBodyIsJson` | src/rpc/rpc_http.js:216-227 | without the headers the whole HTTP body is decoded as the JSON body and nothing is attached |
| `RpcHttp.ExtractMetaBuffer` | src/rpc/rpc_http.js:229-233 | the prefix is cut off the list in place and becomes the header values |
| `Stun.Layout` | src/rpc/stun.js:345-427 | fields are 4-byte aligned, one behind the other, and within the length computed first |
| `Stun.PacketRoundTrip` | src/rpc/stun.js:144-427 | decoding a packet gives its present attributes in order, and succeeds exactly within the limits of 512 bytes, 11 attributes, 256 bytes each |
| `Stun.DecodeBounded` | src/rpc/stun.js:266-339 | on arbitrary bytes decoding ends with an error or at most 11 attributes |
| `Stun.AddressBack` | src/rpc/stun.js:435-533 | an encoded IPv4 address, masked or not, decodes to its port and bytes wherever it stands |
| `Stun.MethodFieldBack` | src/rpc/stun.js:134-180 | the method written is the method read, and the packet is recognised as STUN |
| `Stun.HeaderOnWire` | src/rpc/stun.js:144-226 | the header is the one of section 6 of RFC 5389: type, length of what follows, magic cookie, transaction id |
| `Stun.AttrOnWire` | src/rpc/stun.js:385-427 | every attribute stands at its aligned offset with type and length high byte first, its value, and zero padding |
| `Stun.AddressOnWire` | src/rpc/stun.js:476-533 | an address is family 1, port and four bytes as sections 15.1 and 15.2 of RFC 5389 say, masked with the magic cookie exactly for XOR-MAPPED-ADDRESS |
| `Stun.ReplyKeepsTid` | src/rpc/stun.js:209-226 | a reply has the same transaction key as its request |
| `Stun.KeysCollide` | src/rpc/stun.js:223-226 | two packets have the same transaction key if and only if the first four of the twelve id bytes agree |
| `Stun.DifferentIdsCollide` | src/rpc/stun.js:223-226 | two concrete different ids with the same key |
| `Stun.EncodedAttrsLen` | src/rpc/stun.js:345-356 | the length pass computes the aligned size of the present attributes |
| `Stun.MaskAddress` | src/rpc/stun.js:521-533 | the in-place loop masks exactly the four address bytes with the packet's own key |
| `Stun.EncodeAttr` | src/rpc/stun.js:385-427 | one attribute is written with type, length, value and zero padding up to the next aligned offset |
| `Stun.EncodeAttrs` | src/rpc/stun.js:385-427 | the write pass fills the buffer exactly with the attributes' bytes, or fails exactly on an unsupported one |
| `Stun.NewPacket` | src/rpc/stun.js:144-154 | the array built by both passes is the packet, and building fails exactly for unsupported attributes or 16-bit overflow |
| `Stun.ReadAttrs` | src/rpc/stun.js:266-339 | the read loop over any bytes returns what the decoder function specifies, with its errors |
| `Stun.LastTextWins` | src/rpc/stun.js:231-260 | of several attributes of one kind the last one counts, for username, password, use-candidate and both roles |
| `Stun.LastAddressWins` | src/rpc/stun.js:231-260 | of several mapped addresses, masked or not, the last one counts |
| `Stun.ReadAttrsMap` | src/rpc/stun.js:231-260 | the loop over the decoded attributes builds the map, and decoding errors come through |
| `IceCredentials.PoolText` | src/rpc/ice.js:178-185 | generated credentials have one pool character per random byte and never a colon |
| `IceCredentials.PoolTextAt` | src/rpc/ice.js:178-185 | each random byte picks the pool character of its value modulo 64 |
| `IceCredentials.RandomCryptoString` | src/rpc/ice.js:178-185 | the generating loop produces that text |
| `IceCredentials.PassesExactly` | src/rpc/ice.js:1236-1251 | a packet passes if and only if its password is the own one and its username is the pair the peer writes, or that pair continued after another colon |
| `IceCredentials.PassesUnsignalled` | src/rpc/ice.js:1236-1251 | before the peer is signalled only the bare own fragment passes |
| `IceCredentials.ContinuationAccepted` | src/rpc/ice.js:1242-1246 | a concrete username no peer writes that passes |
| `IceCredentials.HonestPeerAccepted` | src/rpc/ice.js:1055-1278 | what _make_stun_request_response builds, encoded and decoded, passes the other side's credential and role checks and carries nomination and address as sent |
| `IceCredentials.RolesConflict` | src/rpc/ice.js:1059-1062 | a decoded peer packet conflicts in role if and only if its sender has the receiver's own role |
| `IceCredentials.OwnPacketRejected` | src/rpc/ice.js:1236-1251 | a peer does not accept its own packets |
| `IceCredentials.DefaultCredentialsFit` | src/rpc/ice.js:34-39 | generated credentials of 32 characters always fit the decoder's limits |
| `IceSessions.KeyLessTotal` | src/rpc/ice.js:852-858 | the key order that breaks priority ties is total and irreflexive |
| `IceSessions.KeyLessIsLexicographic` | src/rpc/ice.js:852-858 | the key order is the lexicographic one, at the first difference |
| `IceSessions.BestIsUnique` | src/rpc/ice.js:835-871 | among sessions with distinct open keys the best ready session is unique, so the iteration order does not matter |
| `IceSessions.InvGivesDistinctKeys` | src/rpc/ice.js:572-602 | in every reachable table at most one open session exists per session key |
| `IceSessions.AddedKeysDistinct` | src/rpc/ice.js:572-602 | adding a session keeps open keys distinct |
| `IceSessions.CheckIsAddThenMark` | src/rpc/ice.js:547-563 | starting checks is adding or finding the session and marking it checking |
| `IceRuns.StepKeeps` | src/rpc/ice.js:877-1180 | every event of a peer keeps the table's invariant and moves every session and choice only forward |
| `IceRuns.RunGrows` | src/rpc/ice.js:877-1421 | over any stretch of any run states only move up init, checking, ready, activating, active, closed, and both choices are written once |
| `IceRuns.RunSafety` | src/rpc/ice.js:877-1421 | in every run at most one session is ever activating and one ever active, and once the peer is closed none becomes ready or active |
| `IceRuns.ClosedPeerTakesSessions` | src/rpc/ice.js:547-602 | a peer, closed or not, takes a new session if and only if its candidates match and no open session has its key |
| `IceRuns.SelectionIsBest` | src/rpc/ice.js:835-880 | a nomination starts exactly for the one best ready session, on an open controlling peer that has not chosen, and unforced only if no open session ranks above |
| `IceHandlers.RequestIsChecked` | src/rpc/ice.js:1039-1097 | a request is dropped, changing nothing, if and only if the peer is closed or its credentials, address or role are not right; it throws if and only if none is signalled or its session is closed; otherwise it is answered with its own nomination |
| `IceHandlers.RequestSession` | src/rpc/ice.js:1064-1097 | an answered request makes its session ready, whether its channel's, that of its addresses or a new one, starts the search if that is news, and completes its nomination; nothing else changes |
| `IceHandlers.ResponseIsChecked` | src/rpc/ice.js:1110-1160 | a response is dropped if and only if peer or session is not open or it is not genuine; wrong credentials or a missing address close its session, and everything if that is the active one; any other dropped one changes nothing |
| `IceHandlers.ResponseSessions` | src/rpc/ice.js:1161-1180 | an accepted response makes its own session and its channel's ready, starts the search if one was not before, and completes its nomination; nothing else changes |
| `IceHandlers.ChecksStart` | src/rpc/ice.js:547-602 | checking a pair of candidates starts its open session or adds a checking one if they match; nothing else changes |
| `IceHandlers.TimerForces` | src/rpc/ice.js:835-871 | the forced search nominates the best ready session whatever ranks above it |
| `IceAgreement.NominationAgreement` | src/rpc/ice.js:877-1180 | whenever the controlling peer is active it is on its own nominated session, the controlled peer is active on the session that nomination reaches, and every answer to it was given on exactly that session |
| `IceAgreement.ControlledPeerIsFirst` | src/rpc/ice.js:1039-1180 | the controlled peer was active before the step that makes the controlling peer active, and stays on that session |
| `IceAgreed.AgreementIsReached` | src/rpc/ice.js:877-1180 | from every start of two honest peers there is a run in which the nomination handshake ends with both active |
| `IceAgreement.AnsweredOnActive` | src/rpc/ice.js:1039-1100 | a nomination that is answered was taken on the session that is active afterwards |
| `IceAgreement.AnswerWithoutSession` | src/rpc/ice.js:583-1100 | on a peer without an active session a nomination is answered and leaves none active if and only if the peer is open and signalled, and filtering turned away candidates that no open session has |
| `IceTurnedAway.DisagreementIsPossible` | src/rpc/ice.js:583-1180 | from every start of two honest peers there is a run, with the nomination's candidates turned away, that ends with the controlling peer active and the controlled peer without an active session |
| `IceObjects.IceSession.Close` | src/rpc/ice.js:1409-1421 | closing a session closes the peer, all sessions and the connection if it is the active one, and otherwise only itself; each object emits its close once |
| `IceObjects.Ice.Close` | src/rpc/ice.js:1281-1292 | the re-entrant chain ends with the peer, its connection and all tracked sessions closed, each close emitted once |
| `IceObjects.Ice.CloseSessions` | src/rpc/ice.js:1286-1288 | closing all sessions of a closed peer, whose listeners call back into it, ends and closes each |
| `IceObjects.Ice.CloseSession` | src/rpc/ice.js:925-932 | from this entry point too the peer is closed exactly when its connection is |
| `IceObjects.RpcN2NConnection.Close` | src/rpc/rpc_n2n.js:25-90 | closing the connection closes its peer and all sessions; between steps the peer is closed exactly when the connection is |
| `IceObjects.Ice.AddSessionIfNotExists` | src/rpc/ice.js:572-602 | an open session of the key is kept, otherwise a new object is tracked in both maps |
| `IceObjects.Ice.StartChecking` | src/rpc/ice.js:547-563 | the objects do what the table's function says |
| `IceObjects.Ice.SearchBest` | src/rpc/ice.js:846-866 | the loop, in any order, ends with the ready session no other ready one beats, and the highest open priority |
| `IceObjects.Ice.ChosenIsBest` | src/rpc/ice.js:835-871 | what the search ends with is the unique best session, activated unless an open one ranks above |
| `IceObjects.Ice.FindSessionToActivate` | src/rpc/ice.js:835-871 | search and activation on objects refine the table's function |
| `IceObjects.Ice.ActivateSession` | src/rpc/ice.js:877-911 | the choice is written once and the session then carries its nomination |
| `IceObjects.Ice.ActivateSessionComplete` | src/rpc/ice.js:918-942 | the session becomes the active one and every other tracked session closes, without closing the peer |
| `IceObjects.Ice.HandleStunRequest` | src/rpc/ice.js:1039-1097 | the handler on objects refines the table's function: reactions, session of the channel, states, nomination |
| `IceObjects.Ice.HandleStunResponse` | src/rpc/ice.js:1110-1180 | the same for responses, including bad credentials that close the session and, through it, peer and connection |
| `RpcBaseConn.RunAdvances` | src/rpc/rpc_base_conn.js:65-172 | in any run the state only advances, the promise is held exactly in init and connecting and settled once, the timer is armed exactly while connecting |
| `RpcBaseConn.ConnectAnswers` | src/rpc/rpc_base_conn.js:113-133 | connect waits if and only if the promise is pending, is done if and only if connected and fails if and only if closed; the first call starts connecting and its timer |
| `RpcBaseConn.EventsMove` | src/rpc/rpc_base_conn.js:65-172 | where each event takes the state, and that the promise is rejected exactly by a close while it is pending |
| `RpcBaseConn.ConnectedResolves` | src/rpc/rpc_base_conn.js:65-172 | in any run the connecting promise ends up resolved if and only if it was, or it was pending and a connect event came while the connection was not closed |
| `RpcBaseConn.ReqidInjective` | src/rpc/rpc_base_conn.js:194-198 | different sequence numbers give different request ids |
| `RpcBaseConn.IdsDistinct` | src/rpc/rpc_base_conn.js:194-198 | one connection never hands out the same request id twice |
| `RpcBaseConn.RpcBaseConnection.OnConnectEvent` | src/rpc/rpc_base_conn.js:65-77 | the one-time connect listener |
| `RpcBaseConn.RpcBaseConnection.Connect` | src/rpc/rpc_base_conn.js:113-133 | connect in each state |
| `RpcBaseConn.RpcBaseConnection.Close` | src/rpc/rpc_base_conn.js:162-172 | closing once: state, event, timer, promise |
| `RpcBaseConn.RpcBaseConnection.AllocateReqid` | src/rpc/rpc_base_conn.js:194-198 | the id given and the next sequence number |
| `RpcClientRuns.StepKeeps` | src/rpc/rpc.js:187-711 | every event keeps the client's invariant and moves connections and requests only forward |
| `RpcClientRuns.RequestsSettleOnce` | src/rpc/rpc.js:187-283 | in every run a request is settled once and for good, a released one never changes, and none is left sending or waiting, unsettled, on a closed connection |
| `RpcClientRuns.ResponseAnswersItsOwn` | src/rpc/rpc.js:390-409 | a response answers a request if and only if it can be read and carries the request's id on its own connection before release |
| `RpcClientRuns.UnreadableRejects` | src/rpc/rpc_base_conn.js:79-93 | a response that has attachments and no reply rejects, if it is for a pending request of an open connection, exactly the requests that connection waits for, and otherwise none |
| `RpcClientRuns.CloseRejects` | src/rpc/rpc.js:680-711 | closing an open connection rejects exactly the unsettled requests that wait on it |
| `RpcClientRuns.OnlyResponsesAnswer` | src/rpc/rpc.js:187-711 | no event but a response answers a request |
| `RpcClientRuns.SettledByItsOwn` | src/rpc/rpc.js:390-693 | a request is answered only by a readable response with its own id on its own connection, or rejected by its own connection closing |
| `RpcClientRuns.AfterSendKeeps` | src/rpc/rpc_base_conn.js:143-160 | a failed send, which is swallowed, still leaves no waiting request unsettled, because it closes the connection |
| `RpcClientRuns.IdIsNew` | src/rpc/rpc.js:436-449 | a newly assigned request id is never one the connection still waits for |
| `RpcClientRuns.GetKeeps` | src/rpc/rpc.js:467-503 | unless disconnected, getting a connection gives an open, accepted one of that address, pooled unless transient |
| `RpcClientRuns.PoolIsSound` | src/rpc/rpc.js:467-711 | in every run pool entries are open, not transient and under their own address, and the pool is empty while disconnected |
| `RpcCalls.StartsOnItsAddress` | src/rpc/rpc.js:201-449 | a request by address starts on the pooled connection of that very address, or a new one that is pooled unless transient, is connecting or connected and knows its id; disconnected, nothing changes |
| `RpcCalls.StaysOnItsAddress` | src/rpc/rpc.js:187-449 | in every run a request stays, with its id, on a connection of the address it started with |
| `RpcCalls.ConnectedIsSent` | src/rpc/rpc.js:223-241 | after connecting a request is sent if and only if its connection is connected, and otherwise ends |
| `RpcCalls.SentWaits` | src/rpc/rpc.js:236-246 | a sent request waits; one whose send failed waits, settled, on a closed connection |
| `RpcCalls.RequestEnds` | src/rpc/rpc.js:280-461 | a request that gets its reply or gives up is released, and of the ids its connection waits for exactly its own is gone |
| `RpcCalls.ComesIn` | src/rpc/rpc.js:557-606 | an incoming connection is accepted in its state and takes its address in the pool, or is closed and not pooled while disconnected; all others stay |
| `RpcCalls.Disconnects` | src/rpc/rpc.js:654-693 | disconnecting empties the pool, closes for good exactly the pooled connections, and rejects exactly the unsettled requests waiting on them |
| `RpcCalls.TransportConnects` | src/rpc/rpc_base_conn.js:65-77 | a connect event connects exactly a connection that is not closed |
| `RpcCalls.PooledIsTried` | src/rpc/rpc.js:624-633 | when its wait is over, the connection that is still pooled is connected, and nothing else changes |
| `RpcCalls.ReplacedIsLeft` | src/rpc/rpc.js:624-627 | one that is no longer pooled only loses its timer, and a connection for its address is found or made |
| `RpcClientRuns.ReplacementStays` | src/rpc/rpc.js:680-686 | closing a replaced connection does not evict its replacement |
| `RpcClientRuns.CloseKeeps` | src/rpc/rpc.js:680-711 | closing with its re-entrant reconnect keeps the invariant and leaves the connection closed |
| `RpcClientRuns.DisconnectKeeps` | src/rpc/rpc.js:654-673 | closing all pooled connections keeps the invariant and rejects what they waited for |
| `RpcObjects.DisconnectOneMore` | src/rpc/rpc.js:667-673 | disconnecting one connection at a time adds up to disconnecting all, in any order |
| `RpcObjects.RPC.AcceptNewConnection` | src/rpc/rpc.js:557-606 | a connection is accepted and pooled, or closed at once when disconnected |
| `RpcObjects.RPC.FindConnection` | src/rpc/rpc.js:467-503 | a stale entry is dropped and replaced, an open one reused |
| `RpcObjects.RPC.StartReconnect` | src/rpc/rpc.js:614-648 | one timer per connection with the carried delay, and the increased backoff |
| `RpcObjects.RPC.RejectPending` | src/rpc/rpc.js:688-693 | the loop rejects exactly the pending requests of the connection that are not settled |
| `RpcObjects.RPC.CloseConnection` | src/rpc/rpc.js:680-711 | the close listener in its order: pool, requests, pings, timer, reconnect |
| `RpcObjects.RPC.DisconnectPool` | src/rpc/rpc.js:667-673 | the loop closes every pooled connection for good and leaves the pool empty |
| `RpcObjects.RPC.SetDisconnectedState` | src/rpc/rpc.js:654-661 | entering and leaving the disconnected state |
| `RpcObjects.RPC.AssignConnection` | src/rpc/rpc.js:436-449 | a request joins a connection under a new id and starts connecting it |
| `RpcObjects.RPC.HandleResponse` | src/rpc/rpc.js:390-409 | the pending request of that id is answered, or its connection closed when the response cannot be read; without one nothing changes |
| `RpcObjects.RPC.ReleaseConnection` | src/rpc/rpc.js:457-461 | a released request leaves the map and nothing else changes |
| `RpcObjects.RPC.SendPing` | src/rpc/rpc.js:583-606 | one more unanswered ping, or the connection closes |
| `RpcObjects.RPC.HandlePong` | src/rpc/rpc.js:773-784 | an answered ping is removed; a pong where none was sent is an error that closes |
| `RpcObjects.RPC.OnReconnectTimer` | src/rpc/rpc.js:624-628 | the timer reconnects only if the connection is still the pooled one |
| `RpcObjects.RPC.StartRequest` | src/rpc/rpc.js:201-222 | a request starts on the connection of its address, and not at all while disconnected |
| `RpcKeepAlive.PingsAreFew` | src/rpc/rpc.js:583-606 | in no run does an open connection have more than eight unanswered pings |
| `RpcKeepAlive.NinthPingCloses` | src/rpc/rpc.js:583-606 | in every run one more ping closes an open connection exactly when eight are already unanswered |
| `RpcKeepAlive.PingsAreUnanswered` | src/rpc/rpc.js:585-784 | in every run a connection's open pings are exactly those sent on it and not yet answered by a pong with their own id on it |
| `RpcReconnects.ReconnectArms` | src/rpc/rpc.js:614-648 | in every reachable state a close that leads to a reconnect arms the connection then found for the address with Wait(k) after k reconnects in a row, unless its timer runs already; which one that is, pooled, not pooled or disconnected |
| `RpcReconnects.KthWait` | src/rpc/rpc.js:614-648 | in every run, after a connection without backoff closed and k more in a row, each armed by the one before, closed without a successful attempt or another arming, the wait is exactly min(250 * 1.2^k, 5000), whatever else happens in between |
| `RpcReconnects.StepEffect` | src/rpc/rpc.js:187-711 | no event arms a timer but one that closes a connection, which is the only one it closes and decides the wait |
| `RpcReconnects.ArmedWaits` | src/rpc/rpc.js:614-636 | in every run an armed timer is set to Wait(n) for some n, and the backoff of its connection is the one that follows that wait if and only if it carries any |
| `RpcReconnects.SuccessLeavesTimers` | src/rpc/rpc.js:621-633 | a successful attempt leaves its connection without backoff, and every timer, its own included, as it was |
| `RpcReconnects.ArmedWithoutBackoff` | src/rpc/rpc.js:621-633 | a concrete run in which a timer is armed again during an attempt and runs on after its success |
| `RpcReconnects.OneTimerEach` | src/rpc/rpc.js:621-623 | an armed reconnect timer is not armed again by the closing of other connections |
| `RpcReconnects.CloseArmsClosed` | src/rpc/rpc.js:557-648 | closing a connection leaves some closed connection waiting for a reconnect if and only if the client is disconnected and the connection was open, accepted, not told to stay away, and under the router's default address |
| `RpcReconnects.ClosedYetWaiting` | src/rpc/rpc.js:557-648 | a concrete run that ends with a closed connection whose timer is armed |
| `RpcReconnects.ClosedHasNoTimer` | src/rpc/rpc.js:700-703 | in every run a closed connection that waits for a reconnect was never accepted: it was closed when it was created |
| `Backoff.DelayIsWait` | src/rpc/rpc.js:614-623 | carrying and cutting the backoff in every step equals the closed form |
| `Backoff.WaitsGrowToMax` | config.js:93-95 | waits never shrink, and are the maximum exactly from the eighteenth on |
| `RpcServer.OneExecutionAtATime` | src/rpc/rpc.js:328-347 | in every run the received requests are exactly the running executions, at most one per connection and id |
| `RpcServer.DuplicateJoins` | src/rpc/rpc.js:328-333 | a duplicate of a running request joins its execution and starts none |
| `RpcServer.DuplicatesAnsweredAlike` | src/rpc/rpc.js:328-372 | requests of one execution are answered alike when it failed; when it returned, each with its reply unless the request's own validation of it fails |
| `RpcServer.AnsweredOnce` | src/rpc/rpc.js:290-388 | in every run exactly one response is tried for a request, sent or not, if and only if serving it ended with something other than null or undefined |
| `RpcServer.EndsAsDecided` | src/rpc/rpc.js:290-374 | in every run serving ends in a certain way if and only if an event decided so: an unknown service, an early or a middleware failure, or the execution's outcome with the request's own validation; and the answer is that reply or that failure's code |
| `RpcServer.ReturnedIsAnswered` | src/rpc/rpc.js:346-372 | in every run a request whose execution returned is answered with exactly that reply, unless its own validation of it failed: then, and only then, with that failure |
| `RpcServer.GoesOn` | src/rpc/rpc.js:303-346 | a request through its checks goes on to its middlewares and then to the running execution of its connection and id, or a new one if none runs |
| `RpcServer.NullishIsNotAnswered` | src/rpc/rpc.js:357-366 | a concrete run in which a request is never answered |
| `RpcServer.RpcServer.OnRequest` | src/rpc/rpc.js:290-347 | arrival: unknown service, early failures, middlewares, join or start |
| `RpcServer.RpcServer.OnMiddlewareEnd` | src/rpc/rpc.js:321-325 | after each middleware the next one, the de-duplication, or the catch block |
| `RpcServer.RpcServer.JoinOrStart` | src/rpc/rpc.js:328-347 | join the running execution of this id, or start and record one |
| `RpcServer.RpcServer.OnExecutionEnd` | src/rpc/rpc.js:336-346 | an execution that ends leaves the map with its outcome |
| `RpcServer.RpcServer.OnOutcome` | src/rpc/rpc.js:348-371 | the waiting request answers with the outcome, or with the failure of its own validation |
| `RpcServer.RpcServer.HandleFailure` | src/rpc/rpc.js:357-371 | the catch block: code of the failure, or escape on null and undefined |
| `BlobTranslator.ProcessSucceeds` | src/sdk/blob_translator.js:101-138 | a list is processed if and only if every id is known with a fitting type; else the first bad block decides the error |
| `BlobTranslator.CommittedNeedsUnstaged` | src/sdk/blob_translator.js:104-113 | an entry of type 'committed' is accepted if and only if the blob has its id and nothing is staged under it |
| `BlobTranslator.StagedHidesCommitted` | src/sdk/blob_translator.js:104-113 | a concrete list that is accepted until a block is staged under its id |
| `BlobTranslator.ProcessTiles` | src/sdk/blob_translator.js:101-138 | parts follow the list, each resolved to the staged block or else the committed one, and their ranges tile [0, total size) |
| `BlobTranslator.BlocksById` | src/sdk/blob_translator.js:102-109 | the two loops build the table in which later entries and staged blocks win |
| `BlobTranslator.ProcessBlockList` | src/sdk/blob_translator.js:101-138 | the loop with its running offset and early failures refines the processing function |
| `BlobStore.SameBlocks` | src/sdk/blob_translator.js:111-138 | blob and list of blocks agree on which blocks can be committed and on the bytes each part copies |
| `BlobStore.CommitAgrees` | src/sdk/blob_translator.js:152-209 | committing on the blob is committing on the list of blocks; a rejected list changes nothing |
| `BlobStore.RunAgrees` | src/sdk/blob_translator.js:24-209 | over any sequence of uploads and commits the blob is the concatenation of its blocks and every committed entry slices exactly its block |
| `BlobStore.RunRepeatsAlike` | src/sdk/blob_translator.js:104-111 | blocks that repeat an id always repeat its data |
| `BlobStore.NewBlobAgrees` | src/sdk/blob_translator.js:24-209 | whatever is uploaded and committed to a new blob, it stays what the list of its blocks says, and committed entries of the same id slice the same bytes out of it |
| `BlobStore.StoredBlob.UncommittedList` | src/sdk/blob_translator.js:59-84 | the listing has every staged block with its size |
| `BlobStore.StoredBlob.UploadParts` | src/sdk/blob_translator.js:177-188 | every part number gets its source's bytes, in whatever order the copies end |
| `BlobStore.StoredBlob.CompleteUpload` | src/sdk/blob_translator.js:190-199 | the parts in the order of their numbers are the new blob |
| `BlobStore.StoredBlob.CommitBlockList` | src/sdk/blob_translator.js:152-209 | the whole commit: result, blob, committed list and staged blocks, against any agreeing list of blocks |
| `MoveWorkers.FindObjectsToMove` | src/lambda_funcs/tiering_between_buckets.js:45-55 | stopping at the first young object of the sorted list selects exactly the old objects of the whole list |
| `MoveWorkers.SelectionIsAccounted` | src/lambda_funcs/tiering_between_buckets.js:87-106 | in every run an object is at all times as often in the list, with a worker, done or failed as it was selected |
| `MoveWorkers.RunSafe` | src/lambda_funcs/tiering_between_buckets.js:87-106 | in every run between different buckets every object of the source stays there as it was or is in the target with its data, and done ones are in the target and have left the source |
| `MoveWorkers.ListsTellResults` | src/lambda_funcs/tiering_between_buckets.js:87-106 | in every run the done list is exactly the objects whose delete succeeded, the failed list those with a failed upload or delete, in order, and what is left to move is the end of the selection |
| `MoveWorkers.WorkersGoRound` | src/lambda_funcs/tiering_between_buckets.js:87-106 | a worker takes the head of the list, uploads it, deletes it and goes back to its loop, at once after a failure; other workers are not affected |
| `MoveWorkers.EndIsPermutation` | src/lambda_funcs/tiering_between_buckets.js:29-106 | at the end done and failed objects are a permutation of the selection if and only if there was a worker or nothing to move |
| `MoveWorkers.MoveKeepsIffDifferent` | src/lambda_funcs/tiering_between_buckets.js:87-106 | a completed move keeps its object if and only if the buckets differ |
| `MoveWorkers.StepTouchesOnlyHeld` | src/lambda_funcs/tiering_between_buckets.js:87-106 | a step changes no key but that of the object the worker holds |
| `MoveWorkers.MoveJob.TakeNext` | src/lambda_funcs/tiering_between_buckets.js:88-91 | a worker takes the head of the shared list or finishes |
| `MoveWorkers.MoveJob.OnUpload` | src/lambda_funcs/tiering_between_buckets.js:92-104 | after the upload: go on to delete, or record the failure |
| `MoveWorkers.MoveJob.OnDelete` | src/lambda_funcs/tiering_between_buckets.js:100-104 | after the delete: done or failed |
| `Failover.AttemptsBounded` | src/agent/agent.js:438-516 | the counter never exceeds 21 in any run |
| `Failover.ServerChangeKeepsServers` | src/agent/agent.js:336-368 | whatever the ping, a change keeps the addresses; a suggested one comes first, once, exactly if the list has it |
| `Failover.ServerChangeAsks` | src/agent/agent.js:361-676 | the address a change asks for is pinged unless the router goes there; requests go there afterwards if and only if they did or the ping was answered, and otherwise master and router stay |
| `Failover.RedirectsAsk` | src/agent/agent.js:452-455 | a redirect asks for the server it names as the master, puts it at the head if and only if it is listed, keeps the addresses, and leaves the counter at 1 |
| `Failover.LimitGoesOn` | src/agent/agent.js:437-441 | a round after more than twenty failures rotates the list, asks for the new head, and leaves the counter at 1 |
| `Failover.RoundsCount` | src/agent/agent.js:442-517 | an answered round resets the counter and a failed one is counted, and nothing else changes |
| `Failover.ChangeCanFail` | src/agent/agent.js:659-673 | a concrete change whose ping fails: the list is rotated, the address in use is the old one |
| `Failover.UnansweredStays` | src/agent/agent.js:416-676 | while no ping is answered no number of rounds moves the agent from the address it uses, given that the router writes its own address as it is |
| `Failover.KthChange` | src/agent/agent.js:416-676 | whatever the pings, failed rounds change servers every 21 rounds, and the k-th change brings the k-th server to the head |
| `Failover.KthChangeAsks` | src/agent/agent.js:336-676 | the k-th change asks for the k-th server as the master: pinged unless in use, in use afterwards if and only if it was or its ping was answered |
| `Failover.EveryServerIsTried` | src/agent/agent.js:416-521 | within 21 * n failed rounds every one of n servers has been at the head, from any reachable counter and whatever the pings |
| `Failover.EveryServerIsAsked` | src/agent/agent.js:416-676 | within one round more every server was pinged unless it was in use, and was in use afterwards if and only if it was before or its ping was answered |
| `Failover.UpdateKeepsBase` | src/agent/agent.js:320-334 | after an update the list is the new one with the base address added if missing, and equal lists leave the order alone |
| `Failover.CaseDoesNotMatter` | src/agent/agent.js:322 | addresses are compared exactly up to the case of their letters |
| `Failover.Agent.HandleServerChange` | src/agent/agent.js:336-368 | rotation or move to front in place, counter, address in use by the outcome of the ping, and when it throws |
| `Failover.Agent.UpdateMasterAddress` | src/agent/agent.js:657-676 | a new master is pinged first; without an answer the update throws and changes nothing |
| `Failover.Agent.RemoveAll` | src/agent/agent.js:353 | every occurrence of the address is removed from the list in place |
| `Failover.Agent.DoHeartbeat` | src/agent/agent.js:416-521 | the loop goes through its rounds until one is answered, with the counter then 0 |
| `Failover.Agent.UpdateServersList` | src/agent/agent.js:320-334 | the list after an update |

## Left out

- IPv6 addresses and ERROR-CODE attributes in STUN packets: the source reserves eight bytes where section 15.1 of RFC 5389 needs more, and gives ERROR-CODE values no usable length; the round trip is about IPv4 addresses and texts, and a decoded ERROR-CODE is kept as its two raw words.
- Sockets, TLS, HTTP, timers, DNS and the native transports: they are events (connected, failed, message, timer fired) that may happen at any time.
- Sessions with public STUN servers, gathering of candidates, port allocation and TCP retries: only the step of adding a session for a pair of candidates is modelled, and `admitted` stands for the candidate filters.
- The queue of messages that a TCP channel holds until a listener is added, and the destruction of its socket when a session closes.
- The transaction id is its four-byte key read as a number, and a random one is any that is not in use.
- The channel of a packet is the session tied to it, passed in and out of the handlers of `IceObjects` instead of an `info` object that is mutated.
- Replies that are not objects, to which attachments cannot be attached either: in `RpcClient` a response carries a flag that tells whether it can be read, and in `RpcRequest` only an absent value cannot take attachments.
- An error's data that JavaScript takes as false, which the receiver drops; and the message and the retryable mark of
  the errors a server answers with, of which `RpcServer` keeps the code.
- JSON is an arbitrary encoding that parses back; property names that JavaScript treats specially, such as `__proto__` as the name of an attachment, are not modelled.
- HTTP header numbers that are not plain decimals are taken as the error that writing them would give.
- Peers whose addresses change while a nomination is on its way: `IceAgreement` assumes that a session's packets always arrive under the same key and that the controlled peer does not filter out the candidates of a nomination that has no open session; `IceAgreement.AnswerWithoutSession` shows why the second is needed.
- Hostile peers, message integrity and the strength of the credentials: the packets in the network are those honest peers sent.
- The RPC object's connections and requests are records in maps keyed by identity, so aliasing between them is not captured; `RpcBaseConn` has the connection as an object.
- Proxying of requests, addresses with an unknown protocol, routing messages other than the id they use and the router address they set, schema validation, statistics and logging.
- Transports whose `_connect` emits before it returns, and the 'connect' event after an activation, which comes after TLS if that is configured: both are events of their own.
- Sending of pings, pongs and routing messages: only the ids they use and the failures that close the connection.
- IdsDistinct: is about the ids of one connection; ids of different connections differ by their clock stamps, which are not modelled.
- UncommittedList: gives the complete listing at once; the source pages it, and takes an empty one when listing fails.
- Storage failures of the blob translator, concurrent commits of one blob, paging of listings, blob names that collide with its own paths, and block ids that name inherited JavaScript properties; an empty range is taken as no bytes.
- Listings are complete and unpaged in `MoveWorkers`, and sorting is given as a sorted permutation of the listing.
- Failure to store the agent's configuration, a base address sent by the server, shutdown, a second heartbeat loop started by a closing connection, and the exits on duplicate or unknown nodes. Server records are their addresses, and addresses are compared as ASCII; how the router writes an address is any function.
- Service registration, routing tables and API schemas: declarative data.
