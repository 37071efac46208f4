/** The shapes exchanged with the managed queue service: the commands the
    wrappers issue, the responses they read, and the wire form of a message
    attribute. The service itself is not modelled: what it answers to a
    command is an input to each operation (`Reply`). */
module Sqs {
  import opened Common

  /** `MessageAttributeValue`: a data type name and the value as text. */
  datatype AttributeValue = AttributeValue(dataType: string, stringValue: string)

  /** A message as the service returns it from a receive. */
  datatype RawMessage = RawMessage(
    messageId: string,
    body: string,
    messageAttributes: Option<Entries<AttributeValue>>)

  datatype Command =
    | CreateQueue(queueName: string, attributes: Option<Entries<string>>, tags: Option<Entries<string>>)
    | DeleteQueue(queueUrl: string)
    | GetQueueUrl(queueName: string)
    | PurgeQueue(queueUrl: string)
    | ReceiveMessage(maxNumberOfMessages: int, messageAttributeNames: seq<string>, queueUrl: string)
    | SendMessage(
        delaySeconds: Option<int>,
        messageAttributes: Entries<AttributeValue>,
        messageBody: string,
        messageDeduplicationId: Option<string>,
        messageGroupId: Option<string>,
        messageSystemAttributes: Entries<AttributeValue>,
        queueUrl: string)

  /** Response of `CreateQueue` and of `GetQueueUrl`. */
  datatype QueueUrlResponse = QueueUrlResponse(queueUrl: Option<string>)

  /** Response of `ReceiveMessage`; the service omits `Messages` when it has
      none to deliver. */
  datatype ReceiveResponse = ReceiveResponse(messages: Option<seq<RawMessage>>)

  /** Response of `DeleteQueue`, `PurgeQueue` and `SendMessage`: request metadata. */
  datatype Ack = Ack(requestId: string)

  /** What `client.send(command)` does: resolve with a response or reject
      with the service's (or the network's) error. */
  datatype Reply<T> = Answered(response: T) | Faulted(fault: string) {
    function ToResult(): Result<T> {
      match this
      case Answered(v) => Ok(v)
      case Faulted(f) => Err(Remote(f))
    }
  }
}
