/** The messenger actor (messenger/messenger.go:73-80, 175-364, 393-436,
    529-539). Each registered handler runs to completion on the actor's one
    thread, so each is modelled as a pure function from the state and the
    event to the next state and the effects the handler emits.

    Effects form a multiset: Go ranges over maps in an unspecified order,
    and the effects of one handler go to different actors (the dialer, a
    peer's writer, a reply channel, a connection). Where the source draws a
    random number or ranges over a map to build a value, the event carries
    the value drawn, and `Admissible` says which values are possible. */
module Messenger {
  import opened Wrappers
  import opened Wire
  import opened Peers
  import opened MapOrder
  import HostOrder

  /** The identity of a subscriber's handler function. */
  type HandlerId = nat

  /** The identity of a `*sync.WaitGroup`. */
  type WaitGroupId = nat

  /** The subscription table; None is a nil `Handler`, which `Subscribe`
      stores like any other. */
  datatype State = State(
    hostId: HostId,
    peers: PeerTable,
    subscriptions: map<Topic, Option<HandlerId>>)

  datatype Effect =
    | Dial(addr: HostId, join: Option<JoinMessage>, wg: Option<WaitGroupId>)  // dialer.Send("dial", …)
    | WaitAdd(group: WaitGroupId, delta: nat)                                 // wg.Add(delta)
    | Write(to: HostId, msg: Message)                                         // peer.writer.Send("write", msg)
    | Deliver(chan: ChanId, value: ActorMessage)                              // replyChan <- value
    | Shutdown(peer: HostId, conn: ConnId)                                    // msgr.shutdown(peer)
    | StopListener                                                            // listener.Send("stop")

  /** One event per registered actor handler, with typed arguments. */
  datatype Event =
    | JoinEvent(remotes: set<HostId>, join: JoinMessage, joinWg: WaitGroupId)
    | ConnectedEvent(addr: HostId, conn: ConnId, reply: JoinMessage, wg: Option<WaitGroupId>)
    | WriteResultEvent(peerId: HostId, msg: Message, err: Option<Error>)
    | SubscribeEvent(topic: Topic, handler: Option<HandlerId>, freshId: MessageId)
    | UnsubscribeEvent(topic: Topic, freshId: MessageId)
    | SendMessageEvent(msg: Message, replyChan: ChanId, selected: Option<HostId>)
    | LeaveEvent

  datatype Output = Output(state: State, effects: multiset<Effect>)

  /** The peer table and subscription table stay as they were for every key
      other than `id`. */
  predicate OthersUnchanged(before: PeerTable, after: PeerTable, id: HostId)
  {
    && after.Keys - {id} == before.Keys - {id}
    && forall other :: other in before && other != id ==> other in after && after[other] == before[other]
  }

  /* ---------------- join message ---------------- */

  /** `jm` is a possible result of `newJoinMessage`: the local host id, every
      subscribed topic once and every known peer once, in map order. */
  predicate IsJoinMessageOf(st: State, jm: JoinMessage)
  {
    && jm.hostId == st.hostId
    && IsEnumeration(jm.topics, st.subscriptions.Keys)
    && IsEnumeration(jm.peers, st.peers.Keys)
  }

  method NewJoinMessage(st: State) returns (jm: JoinMessage)
    ensures IsJoinMessageOf(st, jm)
    ensures |jm.topics| == |st.subscriptions| && |jm.peers| == |st.peers|
  {
    var topics := Enumerate(st.subscriptions.Keys);
    var peers := Enumerate(st.peers.Keys);
    jm := JoinMessage(st.hostId, topics, peers);
  }

  /* ---------------- join ---------------- */

  /** `handleJoin` with typed arguments: one dial per remote address, each
      carrying the join message and the caller's wait group. */
  function HandleJoin(st: State, remotes: set<HostId>, jm: JoinMessage, wg: WaitGroupId): (out: Output)
    requires IsJoinMessageOf(st, jm)
    ensures out.state == st
    ensures forall r :: r in remotes ==> out.effects[Dial(r, Some(jm), Some(wg))] == 1
    ensures forall e :: e in out.effects ==> e.Dial? && e.addr in remotes && e.join == Some(jm) && e.wg == Some(wg)
  {
    Output(st, multiset(set r | r in remotes :: Dial(r, Some(jm), Some(wg))))
  }

  /* ---------------- connected ---------------- */

  /** The entries of `learned` missing from `table`, in order and with
      repeats: the peers a join reply makes us dial. */
  function GossipTargets(table: PeerTable, learned: seq<HostId>): (r: seq<HostId>)
    ensures forall i :: 0 <= i < |r| ==> r[i] !in table && r[i] in learned
    ensures forall p :: multiset(r)[p] == if p in table then 0 else multiset(learned)[p]
  {
    if |learned| == 0 then []
    else
      var rest := GossipTargets(table, learned[1..]);
      assert learned == [learned[0]] + learned[1..];
      if learned[0] in table then rest else [learned[0]] + rest
  }

  /** For each target, `wg.Add(1)` when there is a wait group, then a dial
      that carries the wait group (nil or not) and no join message. */
  function GossipEffects(targets: seq<HostId>, wg: Option<WaitGroupId>): (fx: seq<Effect>)
    ensures forall p :: multiset(fx)[Dial(p, None, wg)] == multiset(targets)[p]
    ensures wg.Some? ==> multiset(fx)[WaitAdd(wg.value, 1)] == |targets|
    ensures forall e :: e in fx ==>
      (e.Dial? && e.addr in targets && e.join.None? && e.wg == wg) || (wg.Some? && e == WaitAdd(wg.value, 1))
  {
    if |targets| == 0 then []
    else
      var head := if wg.Some? then [WaitAdd(wg.value, 1), Dial(targets[0], None, wg)] else [Dial(targets[0], None, wg)];
      assert targets == [targets[0]] + targets[1..];
      head + GossipEffects(targets[1..], wg)
  }

  /** The tie-break for a second connection to a known address: the host
      whose id sorts first replaces its existing peer. */
  function ReplacesExisting(local: HostId, addr: HostId): (r: bool)
    ensures r ==> local != addr && !HostOrder.Less(addr, local)
    ensures local != addr && !r ==> HostOrder.Less(addr, local)
  {
    HostOrder.LessAsymmetric(local, addr);
    HostOrder.LessTotal(local, addr);
    HostOrder.Less(local, addr)
  }

  /** The effects of gossip after installing a peer: one dial (and one
      `wg.Add(1)`) per learned address missing from the new table. */
  function GossipAfterInstall(peers: PeerTable, learned: seq<HostId>, wg: Option<WaitGroupId>): (fx: multiset<Effect>)
    ensures forall p :: fx[Dial(p, None, wg)] == if p in peers then 0 else multiset(learned)[p]
    ensures wg.Some? ==> fx[WaitAdd(wg.value, 1)] == |GossipTargets(peers, learned)|
    ensures forall e :: e in fx ==>
      (e.Dial? && e.join.None? && e.wg == wg && e.addr !in peers && e.addr in learned) || (wg.Some? && e == WaitAdd(wg.value, 1))
  {
    var targets := GossipTargets(peers, learned);
    var fx := GossipEffects(targets, wg);
    assert forall e :: e in multiset(fx) ==> e in fx;
    multiset(fx)
  }

  /** The peer table once the new peer takes the slot of `addr`. */
  function InstallPeer(peers: PeerTable, addr: HostId, conn: ConnId, topics: seq<Topic>): (r: PeerTable)
    ensures addr in r && r[addr] == Peer(addr, conn, {}, map[])
    ensures r.Keys == peers.Keys + {addr}
    ensures OthersUnchanged(peers, r, addr)
    ensures WellKeyed(peers) ==> WellKeyed(r)
  {
    peers[addr := NewPeer(addr, conn, topics)]
  }

  /** What installing emits: the shutdown of the peer it displaces, then the
      gossip dials against the new table. */
  function InstallEffects(before: PeerTable, installed: PeerTable, addr: HostId, learned: seq<HostId>, wg: Option<WaitGroupId>): (fx: multiset<Effect>)
    ensures addr in before ==> fx[Shutdown(addr, before[addr].conn)] == 1
    ensures forall p :: fx[Dial(p, None, wg)] == if p in installed then 0 else multiset(learned)[p]
    ensures wg.Some? ==> fx[WaitAdd(wg.value, 1)] == |GossipTargets(installed, learned)|
    ensures forall e :: e in fx ==>
      (addr in before && e == Shutdown(addr, before[addr].conn))
      || (e.Dial? && e.join.None? && e.wg == wg && e.addr !in installed && e.addr in learned)
      || (wg.Some? && e == WaitAdd(wg.value, 1))
  {
    var closed := if addr in before then multiset{Shutdown(addr, before[addr].conn)} else multiset{};
    closed + GossipAfterInstall(installed, learned, wg)
  }

  /** `handleConnected`. */
  function HandleConnected(st: State, addr: HostId, conn: ConnId, reply: JoinMessage, wg: Option<WaitGroupId>): (out: Output)
    ensures WellKeyed(st.peers) ==> WellKeyed(out.state.peers)
    // afterwards `addr` maps to one peer: the old one when the tie-break keeps it, else the new connection
    ensures addr in out.state.peers
    ensures addr in st.peers && !ReplacesExisting(st.hostId, addr) ==> out.state.peers[addr] == st.peers[addr]
    ensures addr !in st.peers || ReplacesExisting(st.hostId, addr) ==>
      out.state.peers[addr] == Peer(addr, conn, {}, map[])
    // the connection that loses is the one shut down
    ensures addr in st.peers && !ReplacesExisting(st.hostId, addr) ==> Shutdown(addr, conn) in out.effects
    ensures addr in st.peers && ReplacesExisting(st.hostId, addr) ==> Shutdown(addr, st.peers[addr].conn) in out.effects
    // a second connection to a known address that the tie-break rejects is closed; nothing else happens
    ensures addr in st.peers && !ReplacesExisting(st.hostId, addr) ==>
      out.state == st && out.effects == multiset{Shutdown(addr, conn)}
    // otherwise the new peer is installed and the learned peers are dialled
    ensures !(addr in st.peers && !ReplacesExisting(st.hostId, addr)) ==>
      && out.state == st.(peers := InstallPeer(st.peers, addr, conn, reply.topics))
      && out.effects == InstallEffects(st.peers, out.state.peers, addr, reply.peers, wg)
  {
    if addr in st.peers && !ReplacesExisting(st.hostId, addr) then
      Output(st, multiset{Shutdown(addr, conn)})
    else
      var peers := InstallPeer(st.peers, addr, conn, reply.topics);
      Output(st.(peers := peers), InstallEffects(st.peers, peers, addr, reply.peers, wg))
  }

  /* ---------------- write result ---------------- */

  /** `handleWriteResult`. */
  function HandleWriteResult(st: State, peerId: HostId, msg: Message, err: Option<Error>): (out: Output)
    ensures WellKeyed(st.peers) ==> WellKeyed(out.state.peers)
    ensures out.state.hostId == st.hostId && out.state.subscriptions == st.subscriptions
    ensures OthersUnchanged(st.peers, out.state.peers, peerId)
    // unknown peer: nothing happens
    ensures peerId !in st.peers ==> out == Output(st, multiset{})
    // a failed write drops the peer and shuts it down
    ensures peerId in st.peers && err.Some? ==>
      peerId !in out.state.peers && out.effects[Shutdown(peerId, st.peers[peerId].conn)] == 1
    // a successful write keeps the peer; only a resolved publish changes its pending table
    ensures peerId in st.peers && err.None? ==>
      && peerId in out.state.peers
      && var before := st.peers[peerId];
         var after := out.state.peers[peerId];
         && after.peerId == before.peerId && after.conn == before.conn && after.topics == before.topics
         && after.pending.Keys == (if msg.mtype == Publish then before.pending.Keys - {msg.id} else before.pending.Keys)
         && forall id :: id in after.pending ==> after.pending[id] == before.pending[id]
    // a pending publish is resolved with exactly one delivery of (nil, err)
    ensures peerId in st.peers && msg.mtype == Publish && msg.id in st.peers[peerId].pending ==>
      out.effects[Deliver(st.peers[peerId].pending[msg.id], ActorMessage(None, err))] == 1
    // nothing is delivered otherwise, and nothing else is emitted
    ensures forall e :: e in out.effects ==>
      && peerId in st.peers
      && ((e.Shutdown? && err.Some? && e == Shutdown(peerId, st.peers[peerId].conn))
          || (e.Deliver? && msg.mtype == Publish && msg.id in st.peers[peerId].pending
              && e == Deliver(st.peers[peerId].pending[msg.id], ActorMessage(None, err))))
  {
    if peerId !in st.peers then Output(st, multiset{})
    else
      var peer := st.peers[peerId];
      var resolves := msg.mtype == Publish && msg.id in peer.pending;
      var updated := if resolves then peer.(pending := peer.pending - {msg.id}) else peer;
      var peers := if err.Some? then st.peers - {peerId} else st.peers[peerId := updated];
      var closed := if err.Some? then multiset{Shutdown(peerId, peer.conn)} else multiset{};
      var delivered := if resolves then multiset{Deliver(peer.pending[msg.id], ActorMessage(None, err))} else multiset{};
      Output(st.(peers := peers), closed + delivered)
  }

  /* ---------------- subscribe / unsubscribe ---------------- */

  /** `broadcastSubscription` / `clientBroadcast`: one write of the same
      control message (fresh id, empty topic, encoded topic as body) to every
      peer, and nothing when there are no peers. */
  function Broadcast(peers: PeerTable, mtype: MessageType, t: Topic, id: MessageId): (fx: multiset<Effect>)
    ensures peers == map[] ==> fx == multiset{}
    ensures forall p :: p in peers ==> fx[Write(p, Message(id, mtype, "", EncodedTopic(t)))] == 1
    ensures forall e :: e in fx ==> e.Write? && e.to in peers && e.msg == Message(id, mtype, "", EncodedTopic(t))
  {
    if peers == map[] then multiset{}
    else multiset(set p | p in peers :: Write(p, Message(id, mtype, "", EncodedTopic(t))))
  }

  /** `clientBroadcast` as written: `newPeer` never sets a peer's `writer`,
      so `to.writer.Send` calls a nil actor and panics as soon as the table
      holds a peer. None stands for that panic. */
  function BroadcastAsWritten(peers: PeerTable, mtype: MessageType, t: Topic, id: MessageId): (r: Option<multiset<Effect>>)
    ensures r.Some? <==> peers == map[]
    ensures r.Some? ==> r.value == multiset{}
  {
    if peers == map[] then Some(multiset{}) else None
  }

  /** As written, a broadcast with one connected peer panics (an
      unsubscribe reaches it; a subscribe already fails on its argument
      cast); the corrected broadcast writes to that peer once. */
  lemma BroadcastCrashesAsWritten(peers: PeerTable, mtype: MessageType, t: Topic, id: MessageId, p: HostId)
    requires p in peers
    ensures BroadcastAsWritten(peers, mtype, t, id).None?
    ensures Broadcast(peers, mtype, t, id)[Write(p, Message(id, mtype, "", EncodedTopic(t)))] == 1
  {
  }

  /** `handleSubscribe`: sets (or overwrites) the handler for `t` only. */
  function HandleSubscribe(st: State, t: Topic, handler: Option<HandlerId>, freshId: MessageId): (out: Output)
    ensures out.state.hostId == st.hostId && out.state.peers == st.peers
    ensures t in out.state.subscriptions && out.state.subscriptions[t] == handler
    ensures forall u :: u != t ==>
      (u in out.state.subscriptions <==> u in st.subscriptions)
      && (u in st.subscriptions ==> out.state.subscriptions[u] == st.subscriptions[u])
    ensures forall p :: p in st.peers ==> out.effects[Write(p, Message(freshId, Subscribe, "", EncodedTopic(t)))] == 1
    ensures forall e :: e in out.effects ==> e.Write? && e.to in st.peers && e.msg == Message(freshId, Subscribe, "", EncodedTopic(t))
  {
    Output(st.(subscriptions := st.subscriptions[t := handler]), Broadcast(st.peers, Subscribe, t, freshId))
  }

  /** `handleUnsubscribe`: deletes `t` only. */
  function HandleUnsubscribe(st: State, t: Topic, freshId: MessageId): (out: Output)
    ensures out.state.hostId == st.hostId && out.state.peers == st.peers
    ensures t !in out.state.subscriptions
    ensures forall u :: u != t ==>
      (u in out.state.subscriptions <==> u in st.subscriptions)
      && (u in st.subscriptions ==> out.state.subscriptions[u] == st.subscriptions[u])
    ensures forall p :: p in st.peers ==> out.effects[Write(p, Message(freshId, Unsubscribe, "", EncodedTopic(t)))] == 1
    ensures forall e :: e in out.effects ==> e.Write? && e.to in st.peers && e.msg == Message(freshId, Unsubscribe, "", EncodedTopic(t))
  {
    Output(st.(subscriptions := st.subscriptions - {t}), Broadcast(st.peers, Unsubscribe, t, freshId))
  }

  /* ---------------- send message ---------------- */

  /** `handleSendMessage` (and the identical, unregistered `handleRequest`);
      `selected` is what `selectTopicServer` returned. */
  function HandleSendMessage(st: State, msg: Message, replyChan: ChanId, selected: Option<HostId>): (out: Output)
    requires IsSelection(st.peers, msg.topic, selected)
    ensures WellKeyed(st.peers) ==> WellKeyed(out.state.peers)
    ensures out.state.hostId == st.hostId && out.state.subscriptions == st.subscriptions
    // nobody subscribes: one NoSubscribers delivery, nothing else
    ensures ServersByTopic(st.peers, msg.topic) == {} ==>
      out.state == st && out.effects == multiset{Deliver(replyChan, ActorMessage(None, Some(NoSubscribers)))}
    // otherwise one subscribed peer gains the pending entry and receives the message
    ensures ServersByTopic(st.peers, msg.topic) != {} ==>
      && selected.Some?
      && var s := selected.value;
         && s in st.peers && msg.topic in st.peers[s].topics
         && out.state.peers.Keys == st.peers.Keys
         && OthersUnchanged(st.peers, out.state.peers, s)
         && out.state.peers[s] == st.peers[s].(pending := out.state.peers[s].pending)
         && msg.id in out.state.peers[s].pending && out.state.peers[s].pending[msg.id] == replyChan
         && (forall id :: id != msg.id ==>
               (id in out.state.peers[s].pending <==> id in st.peers[s].pending)
               && (id in st.peers[s].pending ==> out.state.peers[s].pending[id] == st.peers[s].pending[id]))
         && out.effects == multiset{Write(s, msg)}
  {
    match selected
    case None =>
      Output(st, multiset{Deliver(replyChan, ActorMessage(None, Some(NoSubscribers)))})
    case Some(s) =>
      var peer := st.peers[s];
      Output(st.(peers := st.peers[s := peer.(pending := peer.pending[msg.id := replyChan])]), multiset{Write(s, msg)})
  }

  /* ---------------- leave ---------------- */

  /** `handleLeave`: stop the listener, empty the peer table and shut down
      every former peer; subscriptions stay. */
  function HandleLeave(st: State): (out: Output)
    ensures WellKeyed(st.peers) ==> WellKeyed(out.state.peers)
    ensures out.state.hostId == st.hostId && out.state.subscriptions == st.subscriptions
    ensures out.state.peers == map[]
    ensures out.effects[StopListener] == 1
    ensures forall id :: id in st.peers ==> out.effects[Shutdown(id, st.peers[id].conn)] == 1
    ensures forall e :: e in out.effects ==>
      e == StopListener || (e.Shutdown? && e.peer in st.peers && e.conn == st.peers[e.peer].conn)
  {
    Output(st.(peers := map[]),
           multiset{StopListener} + multiset(set id | id in st.peers :: Shutdown(id, st.peers[id].conn)))
  }

  /* ---------------- dispatch ---------------- */

  /** The values an event carries on behalf of the runtime are ones it could
      have produced from this state. */
  predicate Admissible(st: State, ev: Event)
  {
    match ev
    case JoinEvent(_, jm, _) => IsJoinMessageOf(st, jm)
    case SendMessageEvent(msg, _, selected) => IsSelection(st.peers, msg.topic, selected)
    case _ => true
  }

  /** The actor's dispatch of one event to its registered handler. */
  function Step(st: State, ev: Event): (out: Output)
    requires Admissible(st, ev)
    ensures out.state.hostId == st.hostId
    ensures WellKeyed(st.peers) ==> WellKeyed(out.state.peers)
  {
    match ev
    case JoinEvent(remotes, jm, wg) => HandleJoin(st, remotes, jm, wg)
    case ConnectedEvent(addr, conn, reply, wg) => HandleConnected(st, addr, conn, reply, wg)
    case WriteResultEvent(peerId, msg, err) => HandleWriteResult(st, peerId, msg, err)
    case SubscribeEvent(t, h, id) => HandleSubscribe(st, t, h, id)
    case UnsubscribeEvent(t, id) => HandleUnsubscribe(st, t, id)
    case SendMessageEvent(msg, chan, selected) => HandleSendMessage(st, msg, chan, selected)
    case LeaveEvent => HandleLeave(st)
  }
}
