/** `WrappedSqsClient`: a handle on one queue, held as an optional name and
    an optional URL. Every operation takes the service's answer to the
    command it issues as an input and returns that command (`None` when a
    guard threw before anything was sent) together with its own outcome. */
module SqsClient {
  import opened Common
  import opened Sqs
  import opened Codec
  import opened Body

  /** A received message as `receiveMessages` returns it. */
  datatype Message<V> = Message(messageId: string, body: Body<V>, attributes: Entries<JsValue>)

  /** The private `#getQueueUrl`: an empty name throws; otherwise the URL the
      lookup answered, with any lookup failure read as "no URL". */
  function ResolveQueueUrl(name: string, reply: Reply<QueueUrlResponse>): (r: Result<Option<string>>)
    ensures name == "" <==> r.Err?
    ensures r.Err? ==> r.error == Required("name")
    ensures name != "" && reply.Faulted? ==> r == Ok(None)
    ensures name != "" && reply.Answered? ==> r == Ok(reply.response.queueUrl)
  {
    if name == "" then Err(Required("name"))
    else match reply
      case Answered(response) => Ok(response.queueUrl)
      case Faulted(_) => Ok(None)
  }

  /** One received message: the body is the parsed JSON or the raw text,
      the attributes are decoded, and an attribute of unsupported data type
      makes the message (and so the whole receive) throw. */
  function DecodeMessage<V>(m: RawMessage, parse: string -> Option<Body<V>>): (r: Result<Message<V>>)
    ensures r.Ok? <==> DecodeMessageAttributes(m.messageAttributes).Ok?
    ensures r.Err? ==> r.error == DecodeMessageAttributes(m.messageAttributes).error
    ensures r.Ok? ==> r.value == Message(m.messageId, DecodeBodyOrText(m.body, parse), DecodeMessageAttributes(m.messageAttributes).value)
  {
    match DecodeMessageAttributes(m.messageAttributes)
    case Err(e) => Err(e)
    case Ok(attributes) => Ok(Message(m.messageId, DecodeBodyOrText(m.body, parse), attributes))
  }

  /** `response.Messages.map(...)` as written: when the service omits
      `Messages` the call throws a TypeError; whenever `Messages` is present
      it agrees with the corrected `DecodeReceived`, so the two differ exactly
      on an absent `Messages`. */
  function DecodeReceivedAsWritten<V>(messages: Option<seq<RawMessage>>, parse: string -> Option<Body<V>>): (r: Result<seq<Message<V>>>)
    ensures messages.None? ==> r.Err? && r.error.TypeError?
    ensures messages.Some? ==> r == DecodeReceived(messages, parse)
    ensures r != DecodeReceived(messages, parse) <==> messages.None?
  {
    match messages
    case None => Err(TypeError("map"))
    case Some(ms) => MapAll(ms, m => DecodeMessage(m, parse))
  }

  /** An empty queue, which the service reports by omitting `Messages`,
      makes the receive as written throw instead of returning no messages. */
  lemma EmptyReceiveThrows<V>(parse: string -> Option<Body<V>>)
    ensures DecodeReceivedAsWritten(None, parse).Err?
  {
  }

  /** The received messages with an absent `Messages` read as none: one
      message per raw message, in order, each with its id, its body decoded
      and its attributes decoded; the first message with an unsupported
      attribute data type makes the call throw. */
  function DecodeReceived<V>(messages: Option<seq<RawMessage>>, parse: string -> Option<Body<V>>): (r: Result<seq<Message<V>>>)
    ensures messages.None? ==> r == Ok([])
    ensures var ms := messages.GetOr([]);
      && (r.Ok? <==> forall i :: 0 <= i < |ms| ==> DecodeMessageAttributes(ms[i].messageAttributes).Ok?)
      && (r.Err? ==> exists i :: 0 <= i < |ms| && DecodeMessageAttributes(ms[i].messageAttributes).Err?
                       && (forall j :: 0 <= j < i ==> DecodeMessageAttributes(ms[j].messageAttributes).Ok?)
                       && r.error == DecodeMessageAttributes(ms[i].messageAttributes).error)
      && (r.Ok? ==> |r.value| == |ms| && forall i :: 0 <= i < |ms| ==>
            && r.value[i].messageId == ms[i].messageId
            && r.value[i].body == DecodeBodyOrText(ms[i].body, parse)
            && Ok(r.value[i].attributes) == DecodeMessageAttributes(ms[i].messageAttributes))
  {
    var ms := messages.GetOr([]);
    var f := m => DecodeMessage(m, parse);
    var r := MapAll(ms, f);
    assert forall i :: 0 <= i < |ms| ==> (f(ms[i]).Ok? <==> DecodeMessageAttributes(ms[i].messageAttributes).Ok?);
    assert forall i :: 0 <= i < |ms| && FirstFailure(ms, f, i) ==>
      f(ms[i]).error == DecodeMessageAttributes(ms[i].messageAttributes).error;
    r
  }

  class WrappedSqsClient {
    var queueName: Option<string>
    var queueUrl: Option<string>

    /** A URL is only ever held together with a non-empty name. */
    ghost predicate Valid()
      reads this
    {
      queueUrl.Some? ==> Truthy(queueName)
    }

    constructor ()
      ensures Valid()
      ensures queueName == None && queueUrl == None
    {
      queueName := None;
      queueUrl := None;
    }

    /** `queueInitialized`: a non-empty URL is held; on a valid handle a
        non-empty name is then held too. */
    function QueueInitialized(): (b: bool)
      reads this
      ensures b <==> exists url :: queueUrl == Some(url) && url != ""
      ensures Valid() && b ==> Truthy(queueName)
    {
      Truthy(queueUrl)
    }

    /** `createQueue`: an empty name throws before the command is sent; a
        failed command leaves the handle as it was; otherwise name and URL
        are taken from the argument and the response, whatever they held. */
    method CreateQueue(name: string, attributes: Option<Entries<string>>, tags: Option<Entries<string>>,
                       reply: Reply<QueueUrlResponse>)
      returns (call: Option<Command>, r: Result<()>)
      requires Valid()
      modifies this
      ensures Valid()
      ensures name == "" ==> call == None && r == Err(Required("queueName"))
      ensures name != "" ==> call == Some(Command.CreateQueue(name, attributes, tags))
      ensures r.Err? ==> unchanged(this)
      ensures name != "" && reply.Faulted? ==> r == Err(Remote(reply.fault))
      ensures name != "" && reply.Answered? ==>
        r == Ok(()) && queueName == Some(name) && queueUrl == reply.response.queueUrl
    {
      if name == "" {
        return None, Err(Required("queueName"));
      }
      call := Some(Command.CreateQueue(name, attributes, tags));
      match reply
      case Faulted(f) =>
        r := Err(Remote(f));
      case Answered(response) =>
        queueName := Some(name);
        queueUrl := response.queueUrl;
        r := Ok(());
    }

    /** `deleteQueue`: throws "queue not yet initialized" before the command
        is sent when no URL is held; after a successful delete neither name
        nor URL is held. */
    method DeleteQueue(reply: Reply<Ack>) returns (call: Option<Command>, r: Result<()>)
      requires Valid()
      modifies this
      ensures Valid()
      ensures !old(QueueInitialized()) ==> call == None && r == Err(NotInitialized)
      ensures old(QueueInitialized()) ==> call == Some(Command.DeleteQueue(old(queueUrl).value))
      ensures r.Err? ==> unchanged(this)
      ensures old(QueueInitialized()) && reply.Faulted? ==> r == Err(Remote(reply.fault))
      ensures old(QueueInitialized()) && reply.Answered? ==> r == Ok(()) && queueName == None && queueUrl == None
    {
      if !QueueInitialized() {
        return None, Err(NotInitialized);
      }
      call := Some(Command.DeleteQueue(queueUrl.value));
      match reply
      case Faulted(f) =>
        r := Err(Remote(f));
      case Answered(_) =>
        queueName := None;
        queueUrl := None;
        r := Ok(());
    }

    /** `getQueue`: an empty name throws before the lookup is sent; a lookup
        that fails or answers no URL throws "queue '<name>' not found" and
        leaves the handle as it was; otherwise name and URL are overwritten. */
    method GetQueue(name: string, reply: Reply<QueueUrlResponse>) returns (call: Option<Command>, r: Result<()>)
      requires Valid()
      modifies this
      ensures Valid()
      ensures name == "" ==> call == None && r == Err(Required("name"))
      ensures name != "" ==> call == Some(GetQueueUrl(name))
      ensures r.Err? ==> unchanged(this)
      ensures name != "" ==>
        (r.Ok? <==> reply.Answered? && Truthy(reply.response.queueUrl))
      ensures name != "" && r.Err? ==> r.error == NotFound(name)
      ensures r.Ok? ==> queueName == Some(name) && queueUrl == reply.response.queueUrl
    {
      var url := ResolveQueueUrl(name, reply);
      if url.Err? {
        return None, Err(url.error);
      }
      call := Some(GetQueueUrl(name));
      if !Truthy(url.value) {
        return call, Err(NotFound(name));
      }
      queueName := Some(name);
      queueUrl := url.value;
      r := Ok(());
    }

    /** `purgeQueue`: throws "queue not yet initialized" before the command is
        sent when no URL is held; otherwise purges the queue at the held URL.
        The handle is never changed. */
    method PurgeQueue(reply: Reply<Ack>) returns (call: Option<Command>, r: Result<()>)
      ensures !QueueInitialized() ==> call == None && r == Err(NotInitialized)
      ensures QueueInitialized() ==> call == Some(Command.PurgeQueue(queueUrl.value))
      ensures QueueInitialized() ==> (r.Ok? <==> reply.Answered?)
      ensures QueueInitialized() && reply.Faulted? ==> r == Err(Remote(reply.fault))
    {
      if !QueueInitialized() {
        return None, Err(NotInitialized);
      }
      call := Some(Command.PurgeQueue(queueUrl.value));
      r := if reply.Answered? then Ok(()) else Err(Remote(reply.fault));
    }

    /** `queueExists`: whether a lookup of `name` answers a non-empty URL; a
        failed lookup reads as false, but an empty name still throws. The
        handle is never changed. */
    method QueueExists(name: string, reply: Reply<QueueUrlResponse>) returns (call: Option<Command>, r: Result<bool>)
      ensures name == "" ==> call == None && r == Err(Required("name"))
      ensures name != "" ==> call == Some(GetQueueUrl(name))
      ensures name != "" ==> r == Ok(reply.Answered? && Truthy(reply.response.queueUrl))
    {
      var url := ResolveQueueUrl(name, reply);
      if url.Err? {
        return None, Err(url.error);
      }
      call := Some(GetQueueUrl(name));
      r := Ok(Truthy(url.value));
    }

    /** `receiveMessages`: throws "queue not yet initialized" before the
        command is sent when no URL is held; otherwise asks for up to `limit`
        (default 1) messages with all their attributes and returns them
        decoded. The handle is never changed. */
    method ReceiveMessages<V>(limit: Option<int>, parse: string -> Option<Body<V>>, reply: Reply<ReceiveResponse>)
      returns (call: Option<Command>, r: Result<seq<Message<V>>>)
      ensures !QueueInitialized() ==> call == None && r == Err(NotInitialized)
      ensures QueueInitialized() ==> call == Some(ReceiveMessage(limit.GetOr(1), [".*"], queueUrl.value))
      ensures QueueInitialized() && reply.Faulted? ==> r == Err(Remote(reply.fault))
      ensures QueueInitialized() && reply.Answered? ==> r == DecodeReceived(reply.response.messages, parse)
    {
      if !QueueInitialized() {
        return None, Err(NotInitialized);
      }
      call := Some(ReceiveMessage(limit.GetOr(1), [".*"], queueUrl.value));
      match reply
      case Faulted(f) =>
        r := Err(Remote(f));
      case Answered(response) =>
        r := DecodeReceived(response.messages, parse);
    }

    /** `sendMessage`: throws "queue not yet initialized" when no URL is held,
        and throws the codec's error when the attributes or then the system
        attributes hold an unsupported value, in both cases before anything
        is sent; otherwise sends the body (a string unchanged, any other value
        serialised) with both attribute maps encoded. The handle is never
        changed. */
    method SendMessage<V>(delaySeconds: Option<int>, attributes: Option<Entries<JsValue>>, body: Body<V>,
                          stringify: V -> string, deduplicationId: Option<string>, groupId: Option<string>,
                          systemAttributes: Option<Entries<JsValue>>, reply: Reply<Ack>)
      returns (call: Option<Command>, r: Result<()>)
      ensures !QueueInitialized() ==> call == None && r == Err(NotInitialized)
      ensures QueueInitialized() && EncodeMessageAttributes(attributes).Err? ==>
        call == None && r == Err(EncodeMessageAttributes(attributes).error)
      ensures QueueInitialized() && EncodeMessageAttributes(attributes).Ok? && EncodeMessageAttributes(systemAttributes).Err? ==>
        call == None && r == Err(EncodeMessageAttributes(systemAttributes).error)
      ensures call.Some? <==>
        QueueInitialized() && EncodeMessageAttributes(attributes).Ok? && EncodeMessageAttributes(systemAttributes).Ok?
      ensures call.Some? ==> call.value == Command.SendMessage(
        delaySeconds, EncodeMessageAttributes(attributes).value, EncodeBody(body, stringify),
        deduplicationId, groupId, EncodeMessageAttributes(systemAttributes).value, queueUrl.value)
      ensures call.Some? ==> (r.Ok? <==> reply.Answered?)
      ensures call.Some? && reply.Faulted? ==> r == Err(Remote(reply.fault))
    {
      if !QueueInitialized() {
        return None, Err(NotInitialized);
      }
      var encoded := EncodeMessageAttributes(attributes);
      if encoded.Err? {
        return None, Err(encoded.error);
      }
      var messageBody := EncodeBody(body, stringify);
      var encodedSystem := EncodeMessageAttributes(systemAttributes);
      if encodedSystem.Err? {
        return None, Err(encodedSystem.error);
      }
      call := Some(Command.SendMessage(delaySeconds, encoded.value, messageBody, deduplicationId, groupId,
                               encodedSystem.value, queueUrl.value));
      r := if reply.Answered? then Ok(()) else Err(Remote(reply.fault));
    }
  }

  /** A fresh handle refuses every queue operation with "queue not yet
      initialized" and sends nothing. */
  method FreshHandleRefuses<V>(body: Body<V>, stringify: V -> string, parse: string -> Option<Body<V>>,
                               ack: Reply<Ack>, received: Reply<ReceiveResponse>)
    returns (calls: seq<Option<Command>>, deleted: Result<()>, purged: Result<()>,
             messages: Result<seq<Message<V>>>, sent: Result<()>)
    ensures calls == [None, None, None, None]
    ensures deleted == purged == sent == Err(NotInitialized) && messages == Err(NotInitialized)
  {
    var client := new WrappedSqsClient();
    var c0, c1, c2, c3;
    c0, deleted := client.DeleteQueue(ack);
    c1, purged := client.PurgeQueue(ack);
    c2, messages := client.ReceiveMessages(None, parse, received);
    c3, sent := client.SendMessage(None, None, body, stringify, None, None, None, ack);
    calls := [c0, c1, c2, c3];
  }

  /** `createQueue` has no "already initialized" guard: a second create
      silently rebinds the handle to the second queue. */
  method CreateTwiceRebinds(first: string, second: string, firstUrl: string, secondUrl: string)
    returns (name: Option<string>, url: Option<string>)
    requires first != "" && second != ""
    ensures name == Some(second) && url == Some(secondUrl)
  {
    var client := new WrappedSqsClient();
    var _, _ := client.CreateQueue(first, None, None, Answered(QueueUrlResponse(Some(firstUrl))));
    var _, _ := client.CreateQueue(second, None, None, Answered(QueueUrlResponse(Some(secondUrl))));
    name, url := client.queueName, client.queueUrl;
  }

  /** Create, delete, then look the name up again: the handle is initialized
      after the create, uninitialized after the delete, and initialized
      again by the lookup. */
  method CreateDeleteGet(name: string, url: string, ack: Ack)
    returns (afterCreate: bool, afterDelete: bool, afterGet: bool)
    requires name != "" && url != ""
    ensures afterCreate && !afterDelete && afterGet
  {
    var client := new WrappedSqsClient();
    var _, _ := client.CreateQueue(name, None, None, Answered(QueueUrlResponse(Some(url))));
    afterCreate := client.QueueInitialized();
    var _, _ := client.DeleteQueue(Answered(ack));
    afterDelete := client.QueueInitialized();
    var _, _ := client.GetQueue(name, Answered(QueueUrlResponse(Some(url))));
    afterGet := client.QueueInitialized();
  }
}
