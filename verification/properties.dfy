/** Properties of the messenger that relate several events or several
    hosts. */
module MessengerProperties {
  import opened Wrappers
  import opened Wire
  import opened Peers
  import opened Messenger
  import HostOrder
  import Guard

  /** Two hosts that each already hold a connection to the other and each
      receive a second one: exactly one of them switches to the new
      connection, and each still holds exactly one peer for the other. */
  lemma MutualDialKeepsOneConnection(
    stA: State, stB: State,
    connA: ConnId, connB: ConnId,
    replyA: JoinMessage, replyB: JoinMessage,
    wgA: Option<WaitGroupId>, wgB: Option<WaitGroupId>)
    requires stA.hostId != stB.hostId
    requires stB.hostId in stA.peers && stA.hostId in stB.peers
    requires stA.peers[stB.hostId].conn != connA && stB.peers[stA.hostId].conn != connB
    ensures
      var outA := HandleConnected(stA, stB.hostId, connA, replyA, wgA);
      var outB := HandleConnected(stB, stA.hostId, connB, replyB, wgB);
      && stB.hostId in outA.state.peers && stA.hostId in outB.state.peers
      && (outA.state.peers[stB.hostId].conn == connA) != (outB.state.peers[stA.hostId].conn == connB)
  {
    HostOrder.ExactlyOneIsSmaller(stA.hostId, stB.hostId);
  }

  /** A pending publish is resolved by the first write result for it and
      never again: the second finds nothing to deliver. */
  lemma PendingResolvedOnce(st: State, peerId: HostId, msg: Message, first: Option<Error>, second: Option<Error>)
    requires peerId in st.peers && msg.mtype == Publish && msg.id in st.peers[peerId].pending
    ensures
      var chan := st.peers[peerId].pending[msg.id];
      var out1 := HandleWriteResult(st, peerId, msg, first);
      var out2 := HandleWriteResult(out1.state, peerId, msg, second);
      && out1.effects[Deliver(chan, ActorMessage(None, first))] == 1
      && forall e :: e in out2.effects ==> !e.Deliver?
  {
  }

  /** Sending a publish and then a successful write of it leaves the state
      as it was and answers the caller once with (nil, nil). */
  lemma PublishAcknowledged(st: State, msg: Message, chan: ChanId, server: HostId)
    requires msg.mtype == Publish
    requires IsSelection(st.peers, msg.topic, Some(server))
    requires msg.id !in st.peers[server].pending
    ensures
      var sent := HandleSendMessage(st, msg, chan, Some(server));
      var acked := HandleWriteResult(sent.state, server, msg, None);
      && sent.effects == multiset{Write(server, msg)}
      && acked.state == st
      && acked.effects == multiset{Deliver(chan, ActorMessage(None, None))}
  {
    var sent := HandleSendMessage(st, msg, chan, Some(server));
    var acked := HandleWriteResult(sent.state, server, msg, None);
    var before := st.peers[server];
    var after := acked.state.peers[server];
    assert after.pending == before.pending;
    assert after == before;
    assert acked.state.peers == st.peers;
  }

  /** A failed write of a pending publish drops the peer, shuts it down and
      answers the caller once with the error. */
  lemma PublishWriteFailed(st: State, msg: Message, chan: ChanId, server: HostId, err: Error)
    requires msg.mtype == Publish
    requires IsSelection(st.peers, msg.topic, Some(server))
    ensures
      var sent := HandleSendMessage(st, msg, chan, Some(server));
      var failed := HandleWriteResult(sent.state, server, msg, Some(err));
      && server !in failed.state.peers
      && failed.effects == multiset{Shutdown(server, st.peers[server].conn), Deliver(chan, ActorMessage(None, Some(err)))}
  {
  }

  /** Unsubscribing a topic that was newly subscribed restores the
      subscription table. */
  lemma UnsubscribeUndoesSubscribe(st: State, t: Topic, handler: Option<HandlerId>, id1: MessageId, id2: MessageId)
    requires t !in st.subscriptions
    ensures HandleUnsubscribe(HandleSubscribe(st, t, handler, id1).state, t, id2).state == st
  {
  }

  /** Subscribing a topic with a nil handler registers the topic, yet an
      inbound request on it is dropped like one for an unknown topic. */
  lemma NilHandlerDropsRequests(st: State, t: Topic, id: MessageId, msg: Message, outcome: Guard.HandlerOutcome)
    requires msg.topic == t
    ensures
      var subs := HandleSubscribe(st, t, None, id).state.subscriptions;
      t in subs && Guard.HandleMessage(subs, msg, outcome).None?
  {
  }

  /** A second leave finds no peer left to shut down. */
  lemma LeaveIsIdempotent(st: State)
    ensures
      var once := HandleLeave(st);
      var twice := HandleLeave(once.state);
      twice.state == once.state && twice.effects == multiset{StopListener}
  {
  }

  /** Two hosts joined by link `l1` each receive a second link `l2` to the
      other. Each applies the tie-break to its own and the remote's address,
      so the lower host switches to `l2` and shuts `l1`, while the higher one
      keeps `l1` and shuts `l2`: each ends up holding the link the other
      closed. */
  lemma MutualDialCanSplitLink(
    stA: State, stB: State, l1: ConnId, l2: ConnId,
    replyA: JoinMessage, replyB: JoinMessage,
    wgA: Option<WaitGroupId>, wgB: Option<WaitGroupId>)
    requires HostOrder.Less(stA.hostId, stB.hostId)
    requires l1 != l2
    requires stB.hostId in stA.peers && stA.peers[stB.hostId].conn == l1
    requires stA.hostId in stB.peers && stB.peers[stA.hostId].conn == l1
    ensures
      var outA := HandleConnected(stA, stB.hostId, l2, replyA, wgA);
      var outB := HandleConnected(stB, stA.hostId, l2, replyB, wgB);
      && outA.state.peers[stB.hostId].conn == l2 && Shutdown(stB.hostId, l1) in outA.effects
      && outB.state.peers[stA.hostId].conn == l1 && Shutdown(stA.hostId, l2) in outB.effects
  {
  }

  /** Gossip dials only addresses the join reply listed and the table did not
      know; never the address just connected. */
  lemma GossipDialsOnlyUnknownListedPeers(st: State, addr: HostId, conn: ConnId, reply: JoinMessage, wg: Option<WaitGroupId>)
    ensures
      var out := HandleConnected(st, addr, conn, reply, wg);
      forall e :: e in out.effects && e.Dial? ==>
        e.addr != addr && e.addr !in st.peers && e.addr in reply.peers
  {
  }

  /** Nothing filters the local address out of the gossip: a join reply that
      lists the local host makes it dial itself. */
  lemma GossipDialsSelf(st: State, addr: HostId, conn: ConnId, reply: JoinMessage, wg: Option<WaitGroupId>)
    requires addr !in st.peers
    requires st.hostId != addr && st.hostId !in st.peers && st.hostId in reply.peers
    ensures Dial(st.hostId, None, wg) in HandleConnected(st, addr, conn, reply, wg).effects
  {
  }

  /** Resubmission after a timeout is a new send of the same message: when
      the second random draw picks another subscriber, both peers hold a
      pending entry for the one message id. */
  lemma ResubmissionLeavesIdPendingTwice(st: State, msg: Message, chan: ChanId, p: HostId, q: HostId)
    requires p != q && p in st.peers && q in st.peers
    requires msg.topic in st.peers[p].topics && msg.topic in st.peers[q].topics
    ensures IsSelection(st.peers, msg.topic, Some(p))
    ensures
      var first := HandleSendMessage(st, msg, chan, Some(p));
      && IsSelection(first.state.peers, msg.topic, Some(q))
      && var second := HandleSendMessage(first.state, msg, chan, Some(q));
         && p in second.state.peers && q in second.state.peers
         && second.state.peers[p].pending[msg.id] == chan
         && second.state.peers[q].pending[msg.id] == chan
         && first.effects + second.effects == multiset{Write(p, msg), Write(q, msg)}
  {
    assert p in ServersByTopic(st.peers, msg.topic);
    var first := HandleSendMessage(st, msg, chan, Some(p));
    assert q in ServersByTopic(first.state.peers, msg.topic);
  }

  /** The state after a sequence of events, or None if some event carries a
      value the runtime could not have produced in the state it meets. */
  function Run(st: State, events: seq<Event>): (r: Option<State>)
    ensures r.Some? ==> r.value.hostId == st.hostId
    ensures r.Some? && WellKeyed(st.peers) ==> WellKeyed(r.value.peers)
    decreases |events|
  {
    if |events| == 0 then Some(st)
    else if !Admissible(st, events[0]) then None
    else Run(Step(st, events[0]).state, events[1..])
  }
}
