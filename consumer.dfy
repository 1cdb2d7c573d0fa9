/** The body of the message consumer started by `ReceiveTask`: read
    messages, log each one, stop at the closed-channel value. The channel is
    given as the sequence of values it delivers. */
module Consumer {

  /** A value read from the message channel: nil (the channel is closed), a
      keepalive marker, or a decoded sensor event. */
  datatype Message = Nil | Keepalive | Event(payload: nat)

  /** Where the first nil is, or the length when there is none. */
  function FirstNil(messages: seq<Message>): (k: nat)
    ensures k <= |messages|
    ensures k < |messages| ==> messages[k].Nil?
    ensures forall j | 0 <= j < k :: !messages[j].Nil?
  {
    if messages == [] || messages[0].Nil? then 0 else 1 + FirstNil(messages[1..])
  }

  /** The consumer loop: `logged` is what it logs, `received` how many values
      it took from the channel. It logs exactly the messages before the first
      nil, in order, takes that nil and nothing after it. */
  method Consume(messages: seq<Message>) returns (logged: seq<Message>, received: nat)
    ensures logged == messages[..FirstNil(messages)]
    ensures forall i | 0 <= i < |logged| :: !logged[i].Nil?
    ensures received == if FirstNil(messages) < |messages| then FirstNil(messages) + 1 else |messages|
  {
    logged, received := [], 0;
    while received < |messages|
      invariant received <= |messages|
      invariant logged == messages[..received]
      invariant forall j | 0 <= j < received :: !messages[j].Nil?
    {
      var message := messages[received];
      received := received + 1;
      if message.Nil? {
        break;
      }
      logged := logged + [message];
    }
  }

  /** A keepalive marker is a non-nil value, so it is logged like an event
      wherever it comes before the first nil. */
  lemma KeepaliveIsLogged(messages: seq<Message>, i: nat)
    requires i < |messages| && messages[i].Keepalive?
    requires forall j | 0 <= j < i :: !messages[j].Nil?
    ensures i < FirstNil(messages)
    ensures messages[..FirstNil(messages)][i] == Keepalive
  {
  }
}
