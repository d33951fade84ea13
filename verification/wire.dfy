/** The wire vocabulary of the messenger (messenger/messenger.go:45-118):
    message types, the five-field message record, the join handshake payload
    and the values delivered on a reply channel. */
module Wire {
  import opened Wrappers

  newtype byte = x: int | 0 <= x < 256

  type Bytes = seq<byte>

  /** A resolved network address such as "127.0.0.1:50000". */
  type HostId = string

  type Topic = string

  const MessageIdSize: nat := 16

  /** A 128-bit message id; fresh ids come from outside the model. */
  type MessageId = s: seq<byte> | |s| == MessageIdSize
    witness seq(MessageIdSize, _ => 0 as byte)

  /** The closed set of message types, declared with `iota` in this order. */
  datatype MessageType =
    | Publish
    | Request
    | Reply
    | ReplyPanic
    | Join
    | Leaving
    | Subscribe
    | Unsubscribe

  /** The integer value `iota` gives each message type. */
  function Code(t: MessageType): (n: nat)
    ensures n < 8
  {
    match t
    case Publish => 0
    case Request => 1
    case Reply => 2
    case ReplyPanic => 3
    case Join => 4
    case Leaving => 5
    case Subscribe => 6
    case Unsubscribe => 7
  }

  /** The message type an integer denotes, if any. */
  function FromCode(n: int): (r: Option<MessageType>)
    ensures r.Some? <==> 0 <= n < 8
    ensures r.Some? ==> Code(r.value) == n
  {
    if n == 0 then Some(Publish)
    else if n == 1 then Some(Request)
    else if n == 2 then Some(Reply)
    else if n == 3 then Some(ReplyPanic)
    else if n == 4 then Some(Join)
    else if n == 5 then Some(Leaving)
    else if n == 6 then Some(Subscribe)
    else if n == 7 then Some(Unsubscribe)
    else None
  }

  lemma CodeRoundTrip(t: MessageType)
    ensures FromCode(Code(t)) == Some(t)
  {
  }

  function Name(t: MessageType): string
  {
    match t
    case Publish => "publish"
    case Request => "request"
    case Reply => "reply"
    case ReplyPanic => "replyPanic"
    case Join => "join"
    case Leaving => "leaving"
    case Subscribe => "subscribe"
    case Unsubscribe => "unsubscribe"
  }

  /** `messageType.String()` on the underlying integer: the name of the type,
      or None where the source panics with "Unknown messageType". */
  function NameOfCode(n: int): (r: Option<string>)
    ensures r.Some? <==> 0 <= n < 8
    ensures forall t: MessageType :: r == Some(Name(t)) <==> n == Code(t)
  {
    match FromCode(n)
    case Some(t) => NamesDistinct(t); Some(Name(t))
    case None => None
  }

  /** No two message types share a name. */
  lemma NamesDistinct(t: MessageType)
    ensures forall u: MessageType :: Name(u) == Name(t) ==> u == t
  {
  }

  /** A message body. `EncodedTopic` is the codec's encoding of a topic, which
      subscribe/unsubscribe broadcasts carry; the codec itself is not part of
      this model, so the encoding stays symbolic. */
  datatype Body = Nil | Raw(bytes: Bytes) | EncodedTopic(topic: Topic)

  datatype Message = Message(id: MessageId, mtype: MessageType, topic: Topic, body: Body)

  /** The handshake payload both sides of a new connection exchange. */
  datatype JoinMessage = JoinMessage(hostId: HostId, topics: seq<Topic>, peers: seq<HostId>)

  datatype Error =
    | ServerDisconnected
    | Timeout
    | NoSubscribers
    | NoHandler
    | NilConn
    | Panic
    | Network(reason: string)

  /** The value sent on a reply channel: a message (nil for pure
      acknowledgements and failures) and an error (nil on success). */
  datatype ActorMessage = ActorMessage(msg: Option<Message>, err: Option<Error>)
}
