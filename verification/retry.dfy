/** The caller's side of Publish and Request: `sendMessage`
    (messenger/messenger.go:366-391). The values that arrive on the reply
    channel, in order, are an input: from the actor, from the peer's reader,
    or the single TimeoutError the timer sends. */
module Retry {
  import opened Wrappers
  import opened Wire

  /** The loop's exit test as written: a nil error or NoSubscribersError. */
  function EndsLoopAsWritten(err: Option<Error>): (r: bool)
    ensures r <==> (err.Some? ==> err.value == NoSubscribers)
  {
    err.None? || err == Some(NoSubscribers)
  }

  /** The exit test with TimeoutError terminal, as the one-shot timer needs. */
  predicate EndsLoop(err: Option<Error>)
  {
    EndsLoopAsWritten(err) || err == Some(Timeout)
  }

  /** The messages submitted to the actor, and the reply that ended the loop
      (None while the caller is still waiting). */
  datatype LoopResult = LoopResult(submitted: seq<Message>, ending: Option<ActorMessage>)

  /** The `for` loop: submit, receive, and either leave or submit again. */
  function Loop(msg: Message, replies: seq<ActorMessage>, ends: Option<Error> -> bool): (r: LoopResult)
    ensures |r.submitted| >= 1
    ensures forall i :: 0 <= i < |r.submitted| ==> r.submitted[i] == msg
    ensures r.ending.None? <==> forall k :: 0 <= k < |replies| ==> !ends(replies[k].err)
    ensures r.ending.None? ==> |r.submitted| == |replies| + 1
    ensures r.ending.Some? ==>
      && |r.submitted| <= |replies|
      && r.ending.value == replies[|r.submitted| - 1]
      && ends(r.ending.value.err)
      && forall k :: 0 <= k < |r.submitted| - 1 ==> !ends(replies[k].err)
    decreases |replies|
  {
    if |replies| == 0 then LoopResult([msg], None)
    else if ends(replies[0].err) then LoopResult([msg], Some(replies[0]))
    else
      var rest := Loop(msg, replies[1..], ends);
      LoopResult([msg] + rest.submitted, rest.ending)
  }

  /** `k` is the position of the first reply that passes the exit test. */
  predicate FirstEnding(replies: seq<ActorMessage>, k: int, ends: Option<Error> -> bool)
  {
    && 0 <= k < |replies|
    && ends(replies[k].err)
    && forall j :: 0 <= j < k ==> !ends(replies[j].err)
  }

  /** What `sendMessage` hands back: body, message id and error. */
  datatype Returned = Returned(body: Body, id: MessageId, err: Option<Error>)

  /** `return reply.Body, msg.MessageId, reply.error` as written; None where
      the reply carries a nil message, whose Body cannot be read (a nil
      pointer dereference). */
  function ResultAsWritten(msg: Message, reply: ActorMessage): (r: Option<Returned>)
    ensures r.None? <==> reply.msg.None?
    ensures r.Some? ==> r.value.id == msg.id && r.value.err == reply.err && r.value.body == reply.msg.value.body
  {
    match reply.msg
    case None => None
    case Some(m) => Some(Returned(m.body, msg.id, reply.err))
  }

  /** The result with a nil message read as a nil body. */
  function Result(msg: Message, reply: ActorMessage): (r: Returned)
    ensures r.id == msg.id && r.err == reply.err
    ensures reply.msg.None? ==> r.body == Nil
    ensures ResultAsWritten(msg, reply).Some? ==> r == ResultAsWritten(msg, reply).value
  {
    match reply.msg
    case None => Returned(Nil, msg.id, reply.err)
    case Some(m) => Returned(m.body, msg.id, reply.err)
  }

  /** Where a call stands after the replies seen so far. */
  datatype Call = Waiting | Crashed | Done(ret: Returned)

  /** `sendMessage` as written. */
  function SendMessageAsWritten(msg: Message, replies: seq<ActorMessage>): (r: Call)
    ensures r.Waiting? <==> forall k :: 0 <= k < |replies| ==> !EndsLoopAsWritten(replies[k].err)
    ensures r.Done? ==> r.ret.id == msg.id && EndsLoopAsWritten(r.ret.err)
    // the first reply that ends the loop decides the call: it crashes when that reply has no message
    ensures !r.Waiting? ==>
      exists k :: (FirstEnding(replies, k, EndsLoopAsWritten)
                   && (r.Crashed? <==> replies[k].msg.None?)
                   && (r.Done? ==> r.ret == ResultAsWritten(msg, replies[k]).value))
  {
    var loop := Loop(msg, replies, EndsLoopAsWritten);
    match loop.ending
    case None => Waiting
    case Some(reply) =>
      match ResultAsWritten(msg, reply)
      case None => Crashed
      case Some(ret) => Done(ret)
  }

  /** `sendMessage` with both corrections: a timeout ends the call, and a
      reply without a message yields a nil body. */
  function SendMessage(msg: Message, replies: seq<ActorMessage>): (r: Call)
    ensures !r.Crashed?
    ensures r.Waiting? <==> forall k :: 0 <= k < |replies| ==> !EndsLoop(replies[k].err)
    ensures r.Done? ==> r.ret.id == msg.id && EndsLoop(r.ret.err)
    ensures r.Done? ==> exists k :: FirstEnding(replies, k, EndsLoop) && r.ret == Result(msg, replies[k])
  {
    var loop := Loop(msg, replies, EndsLoop);
    match loop.ending
    case None => Waiting
    case Some(reply) => Done(Result(msg, reply))
  }

  /** As written, the loop leaves only on nil or NoSubscribersError; on any
      other error it submits the identical message again. */
  lemma AsWrittenRetriesOtherErrors(msg: Message, replies: seq<ActorMessage>)
    requires forall k :: 0 <= k < |replies| ==> replies[k].err.Some? && replies[k].err != Some(NoSubscribers)
    ensures Loop(msg, replies, EndsLoopAsWritten) == LoopResult(seq(|replies| + 1, _ => msg), None)
    ensures SendMessageAsWritten(msg, replies) == Waiting
  {
  }

  /** As written, the timer's one TimeoutError is answered with another
      submission, after which the call waits for a reply that may never come. */
  lemma TimeoutResubmittedAsWritten(msg: Message)
    ensures Loop(msg, [ActorMessage(None, Some(Timeout))], EndsLoopAsWritten) == LoopResult([msg, msg], None)
    ensures SendMessageAsWritten(msg, [ActorMessage(None, Some(Timeout))]) == Waiting
  {
  }

  /** As written, a NoSubscribersError, or the (nil, nil) acknowledgement of a
      publish, is read through a nil message. */
  lemma NilMessageCrashesAsWritten(msg: Message, err: Option<Error>)
    requires err.None? || err == Some(NoSubscribers)
    ensures SendMessageAsWritten(msg, [ActorMessage(None, err)]) == Crashed
  {
  }

  /** Corrected: once the timer's TimeoutError arrives the call is over,
      and the message was submitted no more often than replies came. */
  lemma TimeoutEndsCall(msg: Message, replies: seq<ActorMessage>, k: nat)
    requires k < |replies| && replies[k].err == Some(Timeout)
    ensures SendMessage(msg, replies).Done?
    ensures |Loop(msg, replies, EndsLoop).submitted| <= k + 1
  {
  }

  /** Corrected: every reply that ends the loop yields a result, with a nil
      body when the reply carries no message. */
  lemma NilMessageReturnsNilBody(msg: Message, err: Option<Error>)
    requires EndsLoop(err)
    ensures SendMessage(msg, [ActorMessage(None, err)]) == Done(Returned(Nil, msg.id, err))
  {
  }
}
