/** One live connection to a remote host and the table of them, with the
    topic-based choice of a server (messenger/messenger.go:82-90, 221-229,
    438-454). */
module Peers {
  import opened Wrappers
  import opened Wire

  /** The identity of a `net.Conn`; closing it is an effect. */
  type ConnId = nat

  /** The identity of a reply channel; sending on it is an effect. */
  type ChanId = nat

  datatype Peer = Peer(
    peerId: HostId,
    conn: ConnId,
    topics: set<Topic>,
    pending: map<MessageId, ChanId>)

  /** `newPeer`: the topics argument is accepted and ignored, so a new peer
      starts with no topics and no pending replies. */
  function NewPeer(id: HostId, conn: ConnId, topics: seq<Topic>): (p: Peer)
    ensures p.peerId == id && p.conn == conn
    ensures p.topics == {} && p.pending == map[]
  {
    Peer(id, conn, {}, map[])
  }

  type PeerTable = map<HostId, Peer>

  /** Every entry is stored under its own peer id, so a host id names at most
      one peer. */
  predicate WellKeyed(peers: PeerTable)
  {
    forall id :: id in peers ==> peers[id].peerId == id
  }

  /** The peers subscribed to `t`: what `getServersByTopic` collects. */
  function ServersByTopic(peers: PeerTable, t: Topic): set<HostId>
  {
    set id | id in peers && t in peers[id].topics
  }

  /** `server` is a possible outcome of `selectTopicServer(t)`: nil exactly
      when nobody subscribes to `t`, otherwise one of the subscribers. */
  predicate IsSelection(peers: PeerTable, t: Topic, server: Option<HostId>)
  {
    && (server.None? <==> ServersByTopic(peers, t) == {})
    && (server.Some? ==> server.value in ServersByTopic(peers, t))
  }

  /** `getServersByTopic`: ranges over the peer table (in whatever order the
      runtime picks) and keeps the peers whose topics contain `t`. */
  method GetServersByTopic(peers: PeerTable, t: Topic) returns (servers: seq<HostId>)
    ensures forall i :: 0 <= i < |servers| ==> servers[i] in ServersByTopic(peers, t)
    ensures forall id :: id in ServersByTopic(peers, t) ==> id in servers
    ensures forall i, j :: 0 <= i < j < |servers| ==> servers[i] != servers[j]
  {
    servers := [];
    var rest := peers.Keys;
    while rest != {}
      invariant rest <= peers.Keys
      invariant forall i :: 0 <= i < |servers| ==> servers[i] in ServersByTopic(peers, t) && servers[i] !in rest
      invariant forall id :: id in ServersByTopic(peers, t) && id !in rest ==> id in servers
      invariant forall i, j :: 0 <= i < j < |servers| ==> servers[i] != servers[j]
      decreases rest
    {
      var id :| id in rest;
      if t in peers[id].topics {
        servers := servers + [id];
      }
      rest := rest - {id};
    }
  }

  /** `selectTopicServer`: `draw` stands for the value `math/rand` supplies;
      `draw % n` reaches every index in `[0, n)`, as `rand.Intn(n)` does. */
  method SelectTopicServer(peers: PeerTable, t: Topic, draw: nat) returns (server: Option<HostId>)
    ensures IsSelection(peers, t, server)
  {
    var servers := GetServersByTopic(peers, t);
    if |servers| == 0 {
      return None;
    }
    server := Some(servers[draw % |servers|]);
  }
}
