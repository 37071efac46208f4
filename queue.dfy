/** `WrappedQueue`: the second handle on one queue, with the same optional
    name and URL but throwing getters, an "already initialized" guard on
    create, an unguarded `init`, strict JSON bodies and attributes projected
    to their text. As in `SqsClient`, the service's answer is an input and
    the issued command an output (`None` when a guard threw first). */
module Queue {
  import opened Common
  import opened Decimal
  import opened Sqs
  import opened Codec
  import opened Body

  /** A received message as `receiveMessages` returns it: attribute values
      are the wire text, whatever their data type. */
  datatype Message<V> = Message(messageId: string, body: Body<V>, attributes: Entries<string>)

  /** `_.mapValues(MessageAttributes, ({ StringValue }) => StringValue)`. */
  function ProjectAttributes(attributes: Option<Entries<AttributeValue>>): (r: Entries<string>)
    ensures attributes.None? ==> r == []
    ensures attributes.Some? ==> Keys(r) == Keys(attributes.value)
    ensures attributes.Some? ==> forall i :: 0 <= i < |r| ==> r[i].1 == attributes.value[i].1.stringValue
  {
    var w := attributes.GetOr([]);
    var r := seq(|w|, i requires 0 <= i < |w| => (w[i].0, w[i].1.stringValue));
    assert Keys(r) == Keys(w);
    r
  }

  /** The projection agrees with `WrappedSqsClient`'s decoder where the two
      can be compared: a "String" attribute projects to the text it decodes
      to, and a "Number" attribute with canonical text projects to the
      printed form of the number it decodes to. */
  lemma ProjectionAgreesWithDecode(w: Entries<AttributeValue>)
    requires DecodeMessageAttributes(Some(w)).Ok?
    ensures var p := ProjectAttributes(Some(w));
            var d := DecodeMessageAttributes(Some(w)).value;
      && |p| == |d| == |w|
      && forall i :: 0 <= i < |w| ==>
        && p[i].0 == d[i].0
        && (d[i].1.JsString? ==> p[i].1 == d[i].1.s)
        && (d[i].1.JsNumber? && Canonical(w[i].1.stringValue) ==> p[i].1 == ToString(d[i].1.n))
  {
    var p := ProjectAttributes(Some(w));
    var d := DecodeMessageAttributes(Some(w)).value;
    forall i | 0 <= i < |w|
      ensures p[i].0 == d[i].0
      ensures d[i].1.JsString? ==> p[i].1 == d[i].1.s
      ensures d[i].1.JsNumber? && Canonical(w[i].1.stringValue) ==> p[i].1 == ToString(d[i].1.n)
    {
      assert Keys(p)[i] == Keys(w)[i] == Keys(d)[i];
      assert Decodes(w[i].1, d[i].1);
    }
  }

  /** The projection loses the data type: a number sent through
      `WrappedSqsClient.sendMessage` is received here as its text. */
  lemma ProjectionForgetsNumbers(key: string, n: int)
    ensures var sent := EncodeMessageAttributes(Some([(key, JsNumber(Int(n)))]));
      && sent.Ok?
      && ProjectAttributes(Some(sent.value)) == [(key, ToString(Int(n)))]
  {
    var sent := EncodeMessageAttributes(Some([(key, JsNumber(Int(n)))]));
    var x := [(key, JsNumber(Int(n)))];
    assert Supported(x[0].1);
    assert Keys(sent.value) == Keys(x) && |Keys(sent.value)| == |sent.value|;
    assert Encodes(x[0].1, sent.value[0].1) && Keys(sent.value)[0] == key;
    var p := ProjectAttributes(Some(sent.value));
    assert Keys(p) == Keys(sent.value) && |Keys(p)| == |p|;
    assert Keys(p)[0] == key;
  }

  /** One received message: the body must be JSON text (otherwise the whole
      receive throws) and the attributes are projected to their text. */
  function ProjectMessage<V>(m: RawMessage, parse: string -> Option<Body<V>>): (r: Result<Message<V>>)
    ensures r.Ok? <==> parse(m.body).Some?
    ensures r.Err? ==> r.error == SyntaxError(m.body)
    ensures r.Ok? ==> r.value == Message(m.messageId, parse(m.body).value, ProjectAttributes(m.messageAttributes))
  {
    match DecodeBodyStrict(m.body, parse)
    case Err(e) => Err(e)
    case Ok(body) => Ok(Message(m.messageId, body, ProjectAttributes(m.messageAttributes)))
  }

  /** `response.Messages.map(...)` as written: when the service omits
      `Messages` the call throws a TypeError; whenever `Messages` is present
      it agrees with the corrected `ProjectReceived`, so the two differ
      exactly on an absent `Messages`. */
  function ProjectReceivedAsWritten<V>(messages: Option<seq<RawMessage>>, parse: string -> Option<Body<V>>): (r: Result<seq<Message<V>>>)
    ensures messages.None? ==> r.Err? && r.error.TypeError?
    ensures messages.Some? ==> r == ProjectReceived(messages, parse)
    ensures r != ProjectReceived(messages, parse) <==> messages.None?
  {
    match messages
    case None => Err(TypeError("map"))
    case Some(ms) => MapAll(ms, m => ProjectMessage(m, parse))
  }

  /** An empty queue, which the service reports by omitting `Messages`,
      makes the receive as written throw instead of returning no messages. */
  lemma EmptyProjectionThrows<V>(parse: string -> Option<Body<V>>)
    ensures ProjectReceivedAsWritten(None, parse).Err?
  {
  }

  /** The received messages with an absent `Messages` read as none: one per
      raw message, in order, with its id, its parsed body and its projected
      attributes; the first body that is not JSON text makes the call throw. */
  function ProjectReceived<V>(messages: Option<seq<RawMessage>>, parse: string -> Option<Body<V>>): (r: Result<seq<Message<V>>>)
    ensures messages.None? ==> r == Ok([])
    ensures var ms := messages.GetOr([]);
      && (r.Ok? <==> forall i :: 0 <= i < |ms| ==> parse(ms[i].body).Some?)
      && (r.Err? ==> exists i :: 0 <= i < |ms| && parse(ms[i].body).None?
                       && (forall j :: 0 <= j < i ==> parse(ms[j].body).Some?)
                       && r.error == SyntaxError(ms[i].body))
      && (r.Ok? ==> |r.value| == |ms| && forall i :: 0 <= i < |ms| ==>
            && r.value[i].messageId == ms[i].messageId
            && Some(r.value[i].body) == parse(ms[i].body)
            && r.value[i].attributes == ProjectAttributes(ms[i].messageAttributes))
  {
    var ms := messages.GetOr([]);
    var f := m => ProjectMessage(m, parse);
    var r := MapAll(ms, f);
    assert forall i :: 0 <= i < |ms| ==> (f(ms[i]).Ok? <==> parse(ms[i].body).Some?);
    assert forall i :: 0 <= i < |ms| && FirstFailure(ms, f, i) ==> f(ms[i]).error == SyntaxError(ms[i].body);
    r
  }

  class WrappedQueue {
    var queueName: Option<string>
    var queueUrl: Option<string>

    /** A URL is only ever held together with a name (which `init` may have
        set to the empty string). */
    ghost predicate Valid()
      reads this
    {
      queueUrl.Some? ==> queueName.Some?
    }

    constructor ()
      ensures Valid()
      ensures queueName == None && queueUrl == None
    {
      queueName := None;
      queueUrl := None;
    }

    /** The `queueName` getter: throws "queue not yet initialized" unless a
        non-empty name is held, and otherwise returns it. */
    function QueueName(): (r: Result<string>)
      reads this
      ensures r.Ok? <==> Truthy(queueName)
      ensures r.Ok? ==> queueName == Some(r.value) && r.value != ""
      ensures r.Err? ==> r.error == NotInitialized
    {
      if Truthy(queueName) then Ok(queueName.value) else Err(NotInitialized)
    }

    /** The `queueUrl` getter: throws "queue not yet initialized" unless a
        non-empty URL is held, and otherwise returns it; on a valid handle a
        name has then been assigned, though `init` may have made it empty. */
    function QueueUrl(): (r: Result<string>)
      reads this
      ensures r.Ok? <==> Truthy(queueUrl)
      ensures r.Ok? ==> queueUrl == Some(r.value) && r.value != ""
      ensures Valid() && r.Ok? ==> queueName.Some?
      ensures r.Err? ==> r.error == NotInitialized
    {
      if Truthy(queueUrl) then Ok(queueUrl.value) else Err(NotInitialized)
    }

    /** `create`: an empty name throws "queueName is required", then a held
        URL throws "queue already initialized", both before the command is
        sent and leaving the handle as it was; a failed command leaves it as
        it was too; otherwise name and URL come from the argument and the
        response. */
    method Create(name: string, attributes: Option<Entries<string>>, tags: Option<Entries<string>>,
                  reply: Reply<QueueUrlResponse>)
      returns (call: Option<Command>, r: Result<()>)
      requires Valid()
      modifies this
      ensures Valid()
      ensures name == "" ==> call == None && r == Err(Required("queueName"))
      ensures name != "" && old(Truthy(queueUrl)) ==> call == None && r == Err(AlreadyInitialized)
      ensures name != "" && !old(Truthy(queueUrl)) ==> call == Some(CreateQueue(name, attributes, tags))
      ensures r.Err? ==> unchanged(this)
      ensures call.Some? && reply.Faulted? ==> r == Err(Remote(reply.fault))
      ensures call.Some? && reply.Answered? ==>
        r == Ok(()) && queueName == Some(name) && queueUrl == reply.response.queueUrl
    {
      if name == "" {
        return None, Err(Required("queueName"));
      }
      if Truthy(queueUrl) {
        return None, Err(AlreadyInitialized);
      }
      call := Some(CreateQueue(name, attributes, tags));
      match reply
      case Faulted(f) =>
        r := Err(Remote(f));
      case Answered(response) =>
        queueName := Some(name);
        queueUrl := response.queueUrl;
        r := Ok(());
    }

    /** `delete`: throws "queue not yet initialized" before the command is
        sent when no URL is held; after a successful delete neither name nor
        URL is held. */
    method Delete(reply: Reply<Ack>) returns (call: Option<Command>, r: Result<()>)
      requires Valid()
      modifies this
      ensures Valid()
      ensures !old(Truthy(queueUrl)) ==> call == None && r == Err(NotInitialized)
      ensures old(Truthy(queueUrl)) ==> call == Some(DeleteQueue(old(queueUrl).value))
      ensures r.Err? ==> unchanged(this)
      ensures old(Truthy(queueUrl)) && reply.Faulted? ==> r == Err(Remote(reply.fault))
      ensures old(Truthy(queueUrl)) && reply.Answered? ==> r == Ok(()) && queueName == None && queueUrl == None
    {
      if !Truthy(queueUrl) {
        return None, Err(NotInitialized);
      }
      call := Some(DeleteQueue(queueUrl.value));
      match reply
      case Faulted(f) =>
        r := Err(Remote(f));
      case Answered(_) =>
        queueName := None;
        queueUrl := None;
        r := Ok(());
    }

    /** `init`: no guard at all. The name is overwritten before the lookup is
        sent, so it changes even when the lookup fails (the URL then keeps
        its old value); a successful lookup overwrites the URL too. */
    method Init(name: string, reply: Reply<QueueUrlResponse>) returns (call: Option<Command>, r: Result<()>)
      requires Valid()
      modifies this
      ensures Valid()
      ensures call == Some(GetQueueUrl(name))
      ensures queueName == Some(name)
      ensures reply.Faulted? ==> r == Err(Remote(reply.fault)) && queueUrl == old(queueUrl)
      ensures reply.Answered? ==> r == Ok(()) && queueUrl == reply.response.queueUrl
    {
      queueName := Some(name);
      call := Some(GetQueueUrl(name));
      match reply
      case Faulted(f) =>
        r := Err(Remote(f));
      case Answered(response) =>
        queueUrl := response.queueUrl;
        r := Ok(());
    }

    /** `receiveMessages`: throws "queue not yet initialized" before the
        command is sent when no URL is held; otherwise asks for up to `limit`
        (default 1) messages with all their attributes and returns them with
        parsed bodies and projected attributes. The handle is never changed. */
    method ReceiveMessages<V>(limit: Option<int>, parse: string -> Option<Body<V>>, reply: Reply<ReceiveResponse>)
      returns (call: Option<Command>, r: Result<seq<Message<V>>>)
      ensures !Truthy(queueUrl) ==> call == None && r == Err(NotInitialized)
      ensures Truthy(queueUrl) ==> call == Some(ReceiveMessage(limit.GetOr(1), [".*"], queueUrl.value))
      ensures Truthy(queueUrl) && reply.Faulted? ==> r == Err(Remote(reply.fault))
      ensures Truthy(queueUrl) && reply.Answered? ==> r == ProjectReceived(reply.response.messages, parse)
    {
      if !Truthy(queueUrl) {
        return None, Err(NotInitialized);
      }
      call := Some(ReceiveMessage(limit.GetOr(1), [".*"], queueUrl.value));
      match reply
      case Faulted(f) =>
        r := Err(Remote(f));
      case Answered(response) =>
        r := ProjectReceived(response.messages, parse);
    }

    /** `purge`: throws "queue not yet initialized" before the command is
        sent when no URL is held; otherwise purges the queue at the held URL
        and returns the service's response. The handle is never changed. */
    method Purge(reply: Reply<Ack>) returns (call: Option<Command>, r: Result<Ack>)
      ensures !Truthy(queueUrl) ==> call == None && r == Err(NotInitialized)
      ensures Truthy(queueUrl) ==> call == Some(PurgeQueue(queueUrl.value))
      ensures Truthy(queueUrl) && reply.Answered? ==> r == Ok(reply.response)
      ensures Truthy(queueUrl) && reply.Faulted? ==> r == Err(Remote(reply.fault))
    {
      if !Truthy(queueUrl) {
        return None, Err(NotInitialized);
      }
      call := Some(PurgeQueue(queueUrl.value));
      r := reply.ToResult();
    }
  }

  /** Create, create again, delete, then read the URL: the second create is
      refused with "queue already initialized" and sends nothing, and after
      the delete the getters throw again. */
  method CreateTwiceThenDelete(name: string, url: string, ack: Ack)
    returns (first: Result<()>, second: Result<()>, secondCall: Option<Command>, deleted: Result<()>,
             urlAfter: Result<string>, nameAfter: Result<string>)
    requires name != "" && url != ""
    ensures first == Ok(()) && second == Err(AlreadyInitialized) && secondCall == None
    ensures deleted == Ok(()) && urlAfter == Err(NotInitialized) && nameAfter == Err(NotInitialized)
  {
    var q := new WrappedQueue();
    var createCall, deleteCall;
    createCall, first := q.Create(name, None, None, Answered(QueueUrlResponse(Some(url))));
    secondCall, second := q.Create(name, None, None, Answered(QueueUrlResponse(Some(url))));
    deleteCall, deleted := q.Delete(Answered(ack));
    urlAfter := q.QueueUrl();
    nameAfter := q.QueueName();
  }

  /** A failed `init` on a handle bound to one queue leaves it naming the
      new queue while still holding the old queue's URL. */
  method FailedInitMixesQueues(oldName: string, oldUrl: string, newName: string, fault: string)
    returns (name: Result<string>, url: Result<string>)
    requires oldName != "" && oldUrl != "" && newName != ""
    ensures name == Ok(newName) && url == Ok(oldUrl)
  {
    var q := new WrappedQueue();
    var _, _ := q.Create(oldName, None, None, Answered(QueueUrlResponse(Some(oldUrl))));
    var _, _ := q.Init(newName, Faulted(fault));
    name := q.QueueName();
    url := q.QueueUrl();
  }
}
