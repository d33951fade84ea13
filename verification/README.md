# Messenger state machine — a Dafny model

This project models the core of the `messenger` package of a peer-to-peer
messaging library: hosts connect to each other, exchange topic subscriptions
and route publish and request messages to a peer subscribed to the topic.

The heart of the package is an actor. It owns two tables: the peer table
(`hostId → peer`, where a peer holds its connection, its remote topics and its
pending replies) and the subscription table (`topic → handler`). Each
registered handler (`join`, `connected`, `write-result`, `subscribe`,
`unsubscribe`, `send-message`, `leave`) runs to completion on the actor's one
thread. The model therefore writes each handler as a pure function. It takes
a `State` and the event's typed arguments. It returns the next `State` and the
multiset of effects the handler emits:

- dial requests to the dialer;
- `wg.Add(1)` on a wait group;
- writes to a peer's writer;
- values sent on a reply channel;
- connection shutdowns;
- stopping the listener.

Effects form a multiset because Go ranges over maps in an unspecified order,
and because one handler's effects go to different actors.

Three other places in the source are nondeterministic: the `math/rand` server
choice, map iteration when a join message is built, and `crypto/rand` ids. In
each case the event carries the value that was drawn, and the predicate
`Messenger.Admissible` says which values the runtime could have produced. The
methods `Peers.SelectTopicServer` and `Messenger.NewJoinMessage` compute one
such value with a loop over the map, and prove that it is admissible.

Modules:

- `Wrappers`: the `Option` type.
- `HostOrder`: Go's lexicographic string order, used by the tie-break. Dafny's
  `<` on strings is the proper-prefix order.
- `Wire`: message types, the message record, the join message, errors and
  reply-channel values.
- `MapOrder`: the slice built by ranging over a map.
- `Peers`: the peer record, the peer table and server selection.
- `Messenger`: the state, the events, the effects and one function per handler.
- `MessengerProperties`: properties that span several events or two hosts.
- `Guard`: the handler invocation guard (`runHandlerProtected`) and reply
  shaping (`runHandler`).
- `Retry`: the caller's retry loop in `sendMessage`.

The model follows what the code does, including where its arguments or
comments suggest otherwise:

- `handleConnected` passes the join reply's topics to `newPeer`
  (messenger/messenger.go:193), but `newPeer` never reads them and builds an
  empty topic map (line 225). So a new peer starts with no topics.
- A failed write removes and shuts down the peer (lines 285-289). It resolves
  only the pending entry of the publish whose write failed (lines 291-296).
  The peer's other pending replies are dropped unanswered.
- A second `Subscribe` for a topic overwrites the handler (line 315), although
  the interface comment at line 40 says it panics.
- `Subscribe` stores a nil handler like any other (line 315), and
  `handleMessage` then drops messages for that topic (lines 235-238). The
  subscription table holds `Option<HandlerId>`, with None for a nil handler
  (`MessengerProperties.NilHandlerDropsRequests`).
- The handlers shown never add topics to a peer. Peer topics would be filled
  in by the reader path, which is not part of this model. So in the reachable
  states of this model, `send-message` always answers `NoSubscribersError`.
  The contracts are stated for arbitrary states.
- `newPeer` never creates the peer's `writer`, so every
  `writer.Send` in the source is a call on a nil interface. The model emits
  the `Write` effect the code evidently means. The as-written behaviour is
  kept in `Messenger.BroadcastAsWritten` (see Findings).
- Gossip does not filter out the local address. A join reply that lists the
  local host makes it dial itself (`MessengerProperties.GossipDialsSelf`).
- `leave` and a tie-break replacement drop the old peer together with its
  pending replies. Nothing answers the callers that were waiting on them.
- The tie-break compares the local id with the remote id, so the two ends of
  a mutual dial decide independently. Each side keeps exactly one peer, but
  the two sides can keep different links
  (`MessengerProperties.MutualDialCanSplitLink`).

## Model

| member | source | states |
|---|---|---|
| `HostOrder.Less` | messenger/messenger.go:195 | `msgr.hostId < addr` as Go compares strings: byte by byte, and a proper prefix sorts first; two ids in this order are never equal |
| `HostOrder.LessIrreflexive` | messenger/messenger.go:195 | no host id sorts before itself, so a connection from a host to its own id never replaces the existing one |
| `HostOrder.LessAsymmetric` | messenger/messenger.go:195 | if a sorts before b then b does not sort before a |
| `HostOrder.LessTotal` | messenger/messenger.go:195 | any two different host ids are ordered one way or the other |
| `HostOrder.LessTransitive` | messenger/messenger.go:195 | the string order is transitive, so together with the lemmas above the tie-break is a strict total order |
| `HostOrder.ExactlyOneIsSmaller` | messenger/messenger.go:194-201 | for two distinct host ids exactly one sorts before the other |
| `HostOrder.ProperPrefixIsLess` | messenger/messenger.go:195 | the lexicographic order extends the proper-prefix order, where a shorter prefix sorts first as Go's `<` has it |
| `Wire.Code` | messenger/messenger.go:51-60 | every message type has an `iota` value below 8 |
| `Wire.FromCode` | messenger/messenger.go:51-60 | an integer denotes a message type exactly when it is in 0..7, and that type's `iota` value is the integer |
| `Wire.CodeRoundTrip` | messenger/messenger.go:51-60 | decoding a message type's `iota` value gives back the type |
| `Wire.NameOfCode` | messenger/messenger.go:477-498 | `messageType.String` returns a name exactly for values 0..7 and panics for any other value; the name it returns is that of the one type with this value |
| `Wire.NamesDistinct` | messenger/messenger.go:477-498 | no two message types share a name |
| `MapOrder.Enumerate` | messenger/messenger.go:531-536 | ranging over a map and appending each key lists every key exactly once |
| `Peers.NewPeer` | messenger/messenger.go:221-229 | a new peer has the given id and connection, no topics whatever topics it is given, and no pending replies |
| `Peers.GetServersByTopic` | messenger/messenger.go:446-454 | the slice holds exactly the peers whose topics contain the topic, each once |
| `Peers.SelectTopicServer` | messenger/messenger.go:438-444 | the result is nil exactly when no peer subscribes to the topic, and otherwise it is a subscribed peer |
| `Messenger.NewJoinMessage` | messenger/messenger.go:529-539 | the join message carries the local host id, every subscribed topic once and every known peer once |
| `Messenger.HandleJoin` | messenger/messenger.go:175-182 | the state is unchanged, and there is exactly one dial per remote address, carrying the join message and the caller's wait group, and nothing else |
| `Messenger.GossipTargets` | messenger/messenger.go:205-206 | the addresses to dial are those entries of the reply's peer list missing from the table, with their repeats, and no known address |
| `Messenger.GossipEffects` | messenger/messenger.go:205-212 | there is one dial per target with no join message and the handler's wait group, and one `wg.Add(1)` per target when there is a wait group |
| `Messenger.GossipAfterInstall` | messenger/messenger.go:205-212 | the dials made after installing are counted per address as the reply lists it, and none goes to a known address; there is one `wg.Add(1)` per dial |
| `Messenger.ReplacesExisting` | messenger/messenger.go:194-201 | a second connection to a known address replaces the old peer exactly when the local id sorts before the remote id; it never does for the local id itself |
| `Messenger.InstallPeer` | messenger/messenger.go:193-203 | `addr` now maps to a peer with id `addr`, the new connection, no topics and no pending replies; every other entry is unchanged, and the table stays keyed by peer id |
| `Messenger.InstallEffects` | messenger/messenger.go:194-212 | a displaced peer is shut down exactly once, and the gossip dials and wait-group increments are the only other effects |
| `Messenger.HandleConnected` | messenger/messenger.go:184-213 | afterwards the address maps to exactly one peer: the old one when the tie-break keeps it, else the new connection with no topics or pending replies; the losing connection is shut down; a rejected duplicate changes nothing else and dials nothing; otherwise the learned peers are dialled; the table stays keyed by peer id |
| `Messenger.HandleWriteResult` | messenger/messenger.go:278-298 | an unknown peer is a no-op; an error removes and shuts down the peer; a pending publish is deleted and answered exactly once with (nil, err); other messages leave the pending table alone; no other peer changes |
| `Messenger.Broadcast` | messenger/messenger.go:329-350 | there is exactly one write of the control message to each current peer, and nothing when the table is empty |
| `Messenger.BroadcastAsWritten` | messenger/messenger.go:347-349 | as written, a broadcast completes only when the peer table is empty, because each peer's writer is nil; it then emits nothing |
| `Messenger.BroadcastCrashesAsWritten` | messenger/messenger.go:347-349 | with any peer connected, the broadcast as written panics, where the corrected broadcast writes to that peer once |
| `Messenger.HandleSubscribe` | messenger/messenger.go:312-317 | only the topic's entry is set (overwritten if present, possibly to a nil handler), the peers are untouched, and the effects are exactly one `subscribe` write per current peer, carrying the fresh id, an empty topic and the encoded topic |
| `Messenger.HandleUnsubscribe` | messenger/messenger.go:323-327 | only the topic's entry is deleted, the peers are untouched, and the effects are exactly one `unsubscribe` write per current peer, carrying the fresh id, an empty topic and the encoded topic |
| `Messenger.HandleSendMessage` | messenger/messenger.go:393-404 | with no subscriber there is exactly one `NoSubscribersError` delivery and the state is unchanged; otherwise one subscribed peer gains the pending entry for the message id, receives one write of the message, and nothing else changes |
| `Messenger.HandleLeave` | messenger/messenger.go:356-364 | the peer table is emptied, the listener is stopped once, every former peer is shut down once, and subscriptions are untouched |
| `Messenger.Step` | messenger/messenger.go:132-145 | dispatching any admissible event keeps the host id and keeps the peer table keyed by peer id |
| `MessengerProperties.MutualDialKeepsOneConnection` | messenger/messenger.go:194-203 | when two hosts each get a second connection to the other, exactly one switches to the new connection, and each keeps exactly one peer for the other |
| `MessengerProperties.MutualDialCanSplitLink` | messenger/messenger.go:194-203 | two hosts joined by one link that each receive a second link: the lower host switches to the second link and closes the first, while the higher host keeps the first and closes the second |
| `MessengerProperties.PendingResolvedOnce` | messenger/messenger.go:291-296 | a pending publish is answered by the first write result and never by a later one |
| `MessengerProperties.PublishAcknowledged` | messenger/messenger.go:278-298 | a sent publish followed by a successful write restores the state and answers the caller once with (nil, nil) |
| `MessengerProperties.PublishWriteFailed` | messenger/messenger.go:285-296 | a sent publish whose write fails removes the peer and emits exactly its shutdown and one (nil, err) answer |
| `MessengerProperties.NilHandlerDropsRequests` | messenger/messenger.go:231-238 | after subscribing a topic with a nil handler the topic is registered, yet a message on it is dropped |
| `MessengerProperties.UnsubscribeUndoesSubscribe` | messenger/messenger.go:312-327 | unsubscribing a newly subscribed topic restores the state |
| `MessengerProperties.LeaveIsIdempotent` | messenger/messenger.go:356-364 | a second leave changes nothing and shuts down no peer |
| `MessengerProperties.GossipDialsOnlyUnknownListedPeers` | messenger/messenger.go:205-212 | every gossip dial goes to an address the reply listed and the table did not know; the connected address is never re-dialled |
| `MessengerProperties.GossipDialsSelf` | messenger/messenger.go:205-211 | a join reply that lists the local host, which the table does not hold, makes the host dial itself |
| `MessengerProperties.ResubmissionLeavesIdPendingTwice` | messenger/messenger.go:393-404 | sending the same message twice, with the second draw picking another subscriber, leaves the one message id pending at both peers and writes it to each |
| `MessengerProperties.Run` | messenger/messenger.go:132-145 | any run of admissible events keeps the host id and keeps the peer table keyed by peer id |
| `Guard.RunProtected` | messenger/messenger.go:263-276 | a panic becomes (nil, PanicError), and a normal return becomes (result, nil) |
| `Guard.ReplyTo` | messenger/messenger.go:244-261 | a publish gets no reply; any other message gets a reply with the same id and an empty topic: type `reply` with the handler's body, or type `replyPanic` with a nil body when the handler panicked |
| `Guard.ReplyDeterminesOutcome` | messenger/messenger.go:250-258 | the reply determines what the handler did, so a panic is never mistaken for a nil result |
| `Guard.HandleMessage` | messenger/messenger.go:231-242 | a message whose topic is unsubscribed or has a nil handler gets no reply, and neither does a publish; any other request gets a reply with its id and an empty topic, of type `reply` with the handler's body, or `replyPanic` with a nil body when the handler panicked |
| `Retry.EndsLoopAsWritten` | messenger/messenger.go:387 | the loop's exit test as written passes exactly a nil error or `NoSubscribersError` |
| `Retry.Loop` | messenger/messenger.go:384-390 | every submission is the same message; the loop ends at the first reply that passes the exit test, and before that it submits once per reply |
| `Retry.ResultAsWritten` | messenger/messenger.go:388 | the body, id and error are returned, with no result when the reply's message is nil |
| `Retry.Result` | messenger/messenger.go:388 | the same result, with a nil body for a reply without a message |
| `Retry.SendMessageAsWritten` | messenger/messenger.go:375-391 | as written, the call waits until a reply carries nil or `NoSubscribersError`; the first such reply decides the call, which crashes exactly when that reply carries no message and otherwise returns its body, the id and its error |
| `Retry.SendMessage` | messenger/messenger.go:375-391 | corrected, the call never crashes; it waits until a reply carries nil, `NoSubscribersError` or `TimeoutError`, and returns the first such reply's result with the message id |
| `Retry.AsWrittenRetriesOtherErrors` | messenger/messenger.go:384-390 | while every reply is another error, the identical message is resubmitted once per reply and the call keeps waiting |
| `Retry.TimeoutResubmittedAsWritten` | messenger/messenger.go:383-390 | as written, the timer's `TimeoutError` causes a resubmission instead of ending the call |
| `Retry.NilMessageCrashesAsWritten` | messenger/messenger.go:386-388 | as written, a reply with no message that ends the loop, such as (nil, NoSubscribersError), is read through a nil message |
| `Retry.TimeoutEndsCall` | messenger/messenger.go:383-390 | corrected, a `TimeoutError` ends the call, and no submission follows it |
| `Retry.NilMessageReturnsNilBody` | messenger/messenger.go:386-388 | corrected, a reply without a message that ends the loop returns a nil body with the message id and the error |

## Findings

| source | as written | input that shows it | evidently intended | confidence | as-written member | corrected member |
|---|---|---|---|---|---|---|
| messenger/messenger.go:387 | the loop ends only on a nil error or `NoSubscribersError`; the one-shot timer's `TimeoutError` (line 383) makes it resubmit and wait again; the new submission may go to another subscriber, so one message id can be pending at two peers (`MessengerProperties.ResubmissionLeavesIdPendingTwice`) | replies `[(nil, TimeoutError)]` | `TimeoutError` ends the call and is returned | high, not executed | `Retry.TimeoutResubmittedAsWritten` | `Retry.TimeoutEndsCall` |
| messenger/messenger.go:388 | `reply.Body` reads through the embedded `*message`, which is nil in the `NoSubscribersError` reply (line 399); a publish acknowledgement (line 294) is nil too, but it is only reached when line 281's `.(error)` cast gets a non-nil interface | replies `[(nil, NoSubscribersError)]` | return a nil body | high, not executed | `Retry.NilMessageCrashesAsWritten` | `Retry.NilMessageReturnsNilBody` |
| messenger/messenger.go:221-229 | `newPeer` never sets the peer's `writer` (declared at line 89), so `to.writer.Send` (line 348) and `server.writer.Send` (line 403) call a method on a nil interface | a connected event installing peer `b`, then an unsubscribe event | each write reaches the peer's writer | high, not executed | `Messenger.BroadcastCrashesAsWritten` | `Messenger.Broadcast` |

## Left out

- The dialer (`messenger/dialer.go`) is left out. It does a network dial, framed writes and reads, and a timed redial. A dial is only an emitted effect here. Its argument handling also reads `info[1]` both as a `*message` and as a future.
- The actor runtime, the listener and the codec are foreign code. The codec's encoding of a topic stays symbolic (`Body.EncodedTopic`).
- Id generation (`newId`) and `math/rand` are left out. Fresh ids and the chosen server are event arguments.
- Timers, goroutines and channels are left out. A channel send is a `Deliver` effect. The timeout is one `TimeoutError` value among the replies the caller receives.
- `Join` and `Leave` on the caller side are left out: address resolution, `resolveAddr` and the wait on the wait group. The actor handlers they trigger are modelled.
- `Messenger.HandleJoin`: all dials share one join message. The source builds one per address, and these are equal up to slice order. The model also uses the evident typed arguments. As written, the handler casts a map to `[]hostId` and ranges over slice indices.
- `handleSubscribe` casts `info[0]`, the topic, to a `Handler` (line 314), which would panic at run time before the broadcast. The model uses the evident typed arguments instead.
- `handleWriteResult` casts a nil error with `.(error)`, which would panic at run time. The model uses the evident typed arguments instead.
- `connId`, the `String` helpers of peer, message and reply value, and the logger are left out. They format text for logs.
- `Broadcast` and `Survey` are left out. They are unfinished stubs.
- The test files are left out. They use an older API.
- Messenger.Broadcast: emits one `Write` per peer, but as written each `writer.Send` panics because `newPeer` never creates a writer (see Findings); the panic is modelled only by `Messenger.BroadcastAsWritten`.
- Messenger.HandleSubscribe: its per-peer `subscribe` writes go through `Broadcast`, so as written the handler panics whenever a peer is connected; the model states the evident writes.
- Messenger.HandleUnsubscribe: the same as `HandleSubscribe`, for the `unsubscribe` writes.
- Messenger.HandleSendMessage: as written, `server.writer.Send` panics on the nil writer after the pending entry is recorded; the model states the evident write.
- MessengerProperties.MutualDialKeepsOneConnection: promises one peer on each side, not that both sides keep the same link; the source does not ensure that (`MessengerProperties.MutualDialCanSplitLink`).
- No lemma promises that a message id is pending at most once across the peer table. As written, the retry loop breaks that (`MessengerProperties.ResubmissionLeavesIdPendingTwice`), and the corrected `Retry.SendMessage` is not connected to the actor's table.
- Pending replies of a peer dropped by `leave` or a tie-break replacement are not answered. The model states this and promises nothing about those callers.
- The reader path of a peer is not part of this model. It receives replies and subscription gossip, and it would fill in peer topics.
