/** The handler invocation guard and reply shaping for an inbound
    request or publish (messenger/messenger.go:231-276). A subscriber's
    handler is user code; what it did is an input here. */
module Guard {
  import opened Wrappers
  import opened Wire

  /** What the user's handler did: returned a body (possibly nil), or panicked. */
  datatype HandlerOutcome = Returned(result: Body) | Panicked

  /** `runHandlerProtected`: the deferred `recover` turns a panic into a nil
      result and `PanicError`; a normal return has no error. */
  function RunProtected(outcome: HandlerOutcome): (r: (Body, Option<Error>))
    ensures r.1.None? <==> outcome.Returned?
    ensures r.1.Some? ==> r.1 == Some(Panic) && r.0 == Nil
    ensures outcome.Returned? ==> r.0 == outcome.result
  {
    match outcome
    case Returned(body) => (body, None)
    case Panicked => (Nil, Some(Panic))
  }

  /** `runHandler`: the reply written back to the client, or None when the
      message is a publish. */
  function ReplyTo(msg: Message, outcome: HandlerOutcome): (r: Option<Message>)
    ensures r.None? <==> msg.mtype == Publish
    ensures r.Some? ==> r.value.id == msg.id && r.value.topic == ""
    ensures r.Some? ==> (r.value.mtype == Reply <==> outcome.Returned?)
    ensures r.Some? ==> (r.value.mtype == ReplyPanic <==> outcome.Panicked?)
    ensures r.Some? && outcome.Returned? ==> r.value.body == outcome.result
    ensures r.Some? && outcome.Panicked? ==> r.value.body == Nil
  {
    var (result, err) := RunProtected(outcome);
    if msg.mtype == Publish then None
    else Some(Message(msg.id, if err == Some(Panic) then ReplyPanic else Reply, "", result))
  }

  /** A reply tells its receiver exactly what the handler did: a panic is
      never confused with a handler that returned nil. */
  lemma ReplyDeterminesOutcome(msg: Message, o1: HandlerOutcome, o2: HandlerOutcome)
    requires msg.mtype != Publish
    requires ReplyTo(msg, o1) == ReplyTo(msg, o2)
    ensures o1 == o2
  {
  }

  /** `handleMessage`: the reply for an inbound message given the local
      subscriptions, where None is a nil handler. A message whose handler
      is nil, because the topic is unsubscribed or was subscribed with a nil
      handler, is dropped. */
  function HandleMessage<H>(subscriptions: map<Topic, Option<H>>, msg: Message, outcome: HandlerOutcome): (r: Option<Message>)
    ensures r.None? <==> msg.topic !in subscriptions || subscriptions[msg.topic].None? || msg.mtype == Publish
    ensures r.Some? ==> r.value.id == msg.id && r.value.topic == ""
    ensures r.Some? ==> (r.value.mtype == ReplyPanic <==> outcome.Panicked?)
    ensures r.Some? && outcome.Returned? ==> r.value.mtype == Reply && r.value.body == outcome.result
    ensures r.Some? && outcome.Panicked? ==> r.value.body == Nil
  {
    if msg.topic !in subscriptions || subscriptions[msg.topic].None? then None else ReplyTo(msg, outcome)
  }
}
