# wrapped-queue, modelled in Dafny

The repository wraps the AWS SQS client in two small classes, `WrappedSqsClient`
and `WrappedQueue`. Each one is a handle on a single queue, held as two optional
fields: the queue name and the queue URL. Each exposes lifecycle operations
(create, look up, delete) and the message operations purge and receive; only
`WrappedSqsClient` also sends messages. Every
operation checks its guards before it issues at most one command to the
service. Only the lifecycle operations then update the two fields; `init`
writes the name before its command is sent. The accessors issue no command.
`WrappedSqsClient` also has a static codec. It
translates message attributes between the caller's form (key → string or
number) and the wire form (key → `{DataType, StringValue}`).

This model has these modules:

- `Common`: the results and errors the wrappers throw, with the messages of
  the wrappers' own errors (the text of a `JSON.parse` syntax error is
  engine-specific and only stood in for).
  Attribute maps are ordered lists of `(key, value)` entries, in JavaScript
  own-key order. `MapAll` is the in-order traversal that throws at the first
  failing element. `_.mapValues` and `Array.prototype.map` with a throwing
  callback both behave this way.
- `Decimal`: JavaScript numbers restricted to the integers and NaN.
  `ToString` is `toString()` and `Parse` is the global `Number(text)`. Printing
  and then parsing gives back the same number. A text is printed by
  `toString` exactly when it reads back as itself.
- `Sqs`: the commands sent to the service and the responses read back. A
  `Reply` is the service's answer to one command: a response or a fault.
- `Codec`: `encodeMessageAttributes` / `decodeMessageAttributes`, with the
  round-trip laws in both directions.
- `Body`: how message bodies are encoded and decoded. `JSON.stringify` and
  `JSON.parse` are function parameters.
- `SqsClient`: the class `WrappedSqsClient` and its receive decoding.
- `Queue`: the class `WrappedQueue`, its attribute projection and its receive
  decoding.

The service is never modelled. Each operation takes the service's `Reply` as
an argument. It returns the `Command` it issued (`None` when a guard threw
before anything was sent) together with its own `Result`. Operations that
change the handle are class methods with `modifies this`, and their `ensures`
state the new name and URL. Operations that only read the handle (purge,
receive, send, `queueExists`) have no `modifies` clause, so they cannot change
the name or the URL. Each class has a `Valid()` invariant that every method
keeps:

- `WrappedSqsClient`: a URL is only held together with a non-empty name.
- `WrappedQueue`: a URL is only held together with some name. The weaker form
  is needed because `init` accepts any name.

Callers get this back: on a valid handle, `queueInitialized` implies a
non-empty name, and a `queueUrl` that answers implies that a name has been
assigned. That name may be empty (after a failed `init("")`), in which case the
`queueName` getter still throws.

Where one might expect otherwise, the model follows the code:

- `WrappedQueue.init` has no "already initialized" guard.
- `WrappedQueue.init` writes the name before the lookup is sent. A failed
  lookup therefore leaves the new name next to the old URL
  (`Queue.FailedInitMixesQueues`).
- `queueExists` throws on an empty name instead of answering false.
- `WrappedSqsClient.createQueue` silently rebinds an initialized handle, while
  `WrappedQueue.create` refuses with "queue already initialized".
- Received messages carry no receipt handle.
- `WrappedQueue.receiveMessages` throws when a body is not JSON, instead of
  keeping the raw text.

## Model

| member | source | states |
|---|---|---|
| `Common.MapAll` | lib/WrappedSqsClient.js:73-81 | the traversal succeeds iff the callback succeeds on every element, and then gives one result per element in order; otherwise it throws the error of the first failing element |
| `Decimal.Parse` | lib/WrappedSqsClient.js:77 | `Number(text)`: white space (tab, vertical tab, form feed, byte order mark, line terminators and every Unicode space separator) is trimmed from both ends; text that is empty after trimming reads as 0; the result is NaN exactly when the trimmed text is non-empty and not a signed decimal integer |
| `Decimal.ToString` | lib/WrappedSqsClient.js:101 | `toString()`: NaN prints as "NaN" and nothing else does; an integer prints as its decimal digits without leading zeros, with "-" in front exactly when it is negative; every output is a printed form |
| `Decimal.ParseToString` | lib/WrappedSqsClient.js:72-103 | for every integer and for NaN, `Number` of its `toString()` text is that same number |
| `Decimal.UnicodeSpacesTrimmed` | lib/WrappedSqsClient.js:77 | an ideographic space alone reads as 0, and "12" after an em space reads as 12 |
| `Decimal.ToStringInjective` | lib/WrappedSqsClient.js:101 | two numbers with the same decimal text are the same number |
| `Decimal.NonCanonicalTexts` | lib/WrappedSqsClient.js:77 | `Number` also accepts "007" and "+5" (reading 7 and 5), texts that `toString` never produces; "1.5" reads as NaN here |
| `Decimal.PaddedTexts` | lib/WrappedSqsClient.js:77 | `Number` reads " 12 " as 12 and "" as 0, and neither is the printed form of the number it reads as |
| `Decimal.CanonicalIffPrintedForm` | lib/WrappedSqsClient.js:77 | a text reads back as itself through `Number` and `toString` exactly when it is "NaN", "0", or digits not starting with 0 with or without a leading minus sign |
| `Codec.EncodeMessageAttributes` | lib/WrappedSqsClient.js:90-103 | an absent map encodes to the empty map; the encoding succeeds iff every value is a string or a number; the keys are kept in order; a string becomes DataType "String" with that string as StringValue; a number becomes DataType "Number" with its decimal text; otherwise the call throws "unsupported attribute value type" naming the `typeof` of the first unsupported value |
| `Codec.DecodeMessageAttributes` | lib/WrappedSqsClient.js:72-82 | an absent map decodes to the empty map; decoding succeeds iff every DataType is "String" or "Number"; the keys are kept in order; "String" gives StringValue unchanged; "Number" gives `Number(StringValue)`; otherwise the call throws "unsupported attribute value type" naming the first unsupported DataType |
| `Codec.DecodeEncode` | lib/WrappedSqsClient.js:72-103 | round trip: for every map whose values are strings and integers, decode(encode(x)) succeeds and equals x |
| `Codec.EncodeDecode` | lib/WrappedSqsClient.js:72-103 | the reverse round trip: encode(decode(w)) == w when every attribute is "String", or "Number" with canonical decimal text |
| `Codec.EncodeDecodeIff` | lib/WrappedSqsClient.js:72-103 | the reverse round trip encode(decode(w)) == w holds exactly when every attribute is "String", or "Number" with text that `toString` prints ("NaN", "0", or digits without a leading 0, optionally after "-") |
| `Codec.EncodeDecodeNormalizes` | lib/WrappedSqsClient.js:72-103 | an example of the reverse round trip failing: "Number" "007" decodes to 7 and re-encodes as "7" |
| `Body.EncodeBody` | lib/WrappedSqsClient.js:344 | a string body is sent unchanged; only a non-string body is serialised |
| `Body.DecodeBodyOrText` | lib/WrappedSqsClient.js:295-301 | the received body is the parsed JSON value, or the raw text when it does not parse |
| `Body.DecodeBodyStrict` | lib/WrappedQueue.js:142 | the received body is the parsed JSON value, and text that does not parse throws |
| `Body.BodyRoundTrip` | lib/WrappedSqsClient.js:295-344 | a body is received as it was sent: non-string values whose serialisation parses back, and strings that are not JSON text |
| `Body.TextBodyReinterpreted` | lib/WrappedSqsClient.js:295-301 | a string body that is itself JSON text (such as "123") is received as the value it parses to, not as the string sent |
| `SqsClient.ResolveQueueUrl` | lib/WrappedSqsClient.js:112-133 | an empty name throws "name is required"; a failed lookup yields no URL instead of throwing; a successful lookup yields the response's URL |
| `SqsClient.DecodeMessage` | lib/WrappedSqsClient.js:293-309 | a received message keeps its id, its body is decoded leniently, and its attributes are decoded; it fails exactly when the attribute decoding fails, throwing the codec's error |
| `SqsClient.DecodeReceivedAsWritten` | lib/WrappedSqsClient.js:293-310 | as written: a response without `Messages` throws a TypeError; on every response that has `Messages` it equals the corrected `DecodeReceived`, so the two differ exactly when `Messages` is absent |
| `SqsClient.EmptyReceiveThrows` | lib/WrappedSqsClient.js:293 | the as-written decoding throws when the service reports no messages by omitting `Messages` |
| `SqsClient.DecodeReceived` | lib/WrappedSqsClient.js:293-310 | corrected: an absent `Messages` gives no messages; otherwise one message per raw message in order, with the same id, the decoded body and the decoded attributes; it fails iff some message's attributes fail to decode, and then throws the codec's error for the first such message |
| `SqsClient.WrappedSqsClient.constructor` | lib/WrappedSqsClient.js:49-64 | a new handle holds neither name nor URL |
| `SqsClient.WrappedSqsClient.QueueInitialized` | lib/WrappedSqsClient.js:140-142 | true iff a non-empty URL is held; on a valid handle a non-empty name is then held too |
| `SqsClient.WrappedSqsClient.CreateQueue` | lib/WrappedSqsClient.js:170-192 | an empty name throws "queueName is required" before any command; a failed create leaves the handle unchanged; a successful one sets the name to the argument and the URL to the response's URL, even on an initialized handle; the invariant is kept |
| `SqsClient.WrappedSqsClient.DeleteQueue` | lib/WrappedSqsClient.js:199-219 | with no URL held it throws "queue not yet initialized" before any command and changes nothing; after a successful delete of the held URL, both name and URL are cleared |
| `SqsClient.WrappedSqsClient.GetQueue` | lib/WrappedSqsClient.js:227-237 | an empty name throws before any command; a lookup that fails or answers no URL throws "queue '<name>' not found" and leaves the handle unchanged; otherwise it sets name and URL |
| `SqsClient.WrappedSqsClient.PurgeQueue` | lib/WrappedSqsClient.js:244-260 | with no URL held it throws "queue not yet initialized" before any command; otherwise it purges the held URL and succeeds iff the service answers; name and URL never change |
| `SqsClient.WrappedSqsClient.QueueExists` | lib/WrappedSqsClient.js:268-270 | an empty name throws; otherwise true iff the lookup answers a non-empty URL (a failed lookup is false); name and URL never change |
| `SqsClient.WrappedSqsClient.ReceiveMessages` | lib/WrappedSqsClient.js:279-315 | with no URL held it throws "queue not yet initialized" before any command; otherwise it asks for `limit` (default 1) messages with all attributes from the held URL and returns them decoded; name and URL never change |
| `SqsClient.WrappedSqsClient.SendMessage` | lib/WrappedSqsClient.js:328-358 | throws "queue not yet initialized", then the codec's error for the attributes, then for the system attributes, each before any command; otherwise it sends the body (a string unchanged) and both encoded attribute maps to the held URL; name and URL never change |
| `SqsClient.FreshHandleRefuses` | lib/WrappedSqsClient.js:199-358 | on a never-initialized handle, delete, purge, receive and send all throw "queue not yet initialized" and send nothing |
| `SqsClient.CreateTwiceRebinds` | lib/WrappedSqsClient.js:170-192 | a second create rebinds the handle to the second queue's name and URL |
| `SqsClient.CreateDeleteGet` | lib/WrappedSqsClient.js:170-237 | a handle is initialized after create, uninitialized after delete, and initialized again after a lookup by name |
| `Queue.ProjectAttributes` | lib/WrappedQueue.js:143-146 | received attributes keep every key in order and map each to its StringValue, ignoring DataType; absent attributes give the empty map |
| `Queue.ProjectionAgreesWithDecode` | lib/WrappedQueue.js:143-146 | where the client's decoder succeeds, the projection gives the same keys; a "String" attribute projects to its decoded text, and a canonical "Number" attribute projects to its decoded number's text |
| `Queue.ProjectionForgetsNumbers` | lib/WrappedQueue.js:143-146 | a number encoded by the client's codec is received here as its decimal text |
| `Queue.ProjectMessage` | lib/WrappedQueue.js:140-147 | a received message succeeds iff its body parses, throwing a syntax error otherwise; it keeps its id and projects its attributes |
| `Queue.ProjectReceivedAsWritten` | lib/WrappedQueue.js:139-148 | as written: a response without `Messages` throws a TypeError; on every response that has `Messages` it equals the corrected `ProjectReceived`, so the two differ exactly when `Messages` is absent |
| `Queue.EmptyProjectionThrows` | lib/WrappedQueue.js:139 | the as-written projection throws when the service reports no messages by omitting `Messages` |
| `Queue.ProjectReceived` | lib/WrappedQueue.js:139-148 | corrected: an absent `Messages` gives no messages; otherwise it succeeds iff every body parses, throwing for the first body that does not, with one message per raw message in order |
| `Queue.WrappedQueue.constructor` | lib/WrappedQueue.js:33-36 | a new handle holds neither name nor URL |
| `Queue.WrappedQueue.QueueName` | lib/WrappedQueue.js:43-46 | throws "queue not yet initialized" unless a non-empty name is held, and otherwise returns it |
| `Queue.WrappedQueue.QueueUrl` | lib/WrappedQueue.js:53-56 | throws "queue not yet initialized" unless a non-empty URL is held, and otherwise returns it; on a valid handle a name has then been assigned, possibly the empty one on which the `queueName` getter throws |
| `Queue.WrappedQueue.Create` | lib/WrappedQueue.js:66-91 | an empty name throws "queueName is required"; a held URL then throws "queue already initialized"; both happen before any command and leave the handle unchanged; a failed create changes nothing; a successful one sets the name to the argument and the URL to the response's URL |
| `Queue.WrappedQueue.Delete` | lib/WrappedQueue.js:93-108 | with no URL held it throws "queue not yet initialized" before any command; after a successful delete of the held URL, both name and URL are cleared |
| `Queue.WrappedQueue.Init` | lib/WrappedQueue.js:110-125 | no guard: the name always becomes the argument; the URL becomes the lookup's answer, or stays as it was when the lookup fails |
| `Queue.WrappedQueue.ReceiveMessages` | lib/WrappedQueue.js:127-154 | with no URL held it throws "queue not yet initialized" before any command; otherwise it asks for `limit` (default 1) messages with all attributes from the held URL and returns them with parsed bodies and projected attributes; name and URL never change |
| `Queue.WrappedQueue.Purge` | lib/WrappedQueue.js:156-171 | with no URL held it throws "queue not yet initialized" before any command; otherwise it purges the held URL and returns the service's response; name and URL never change |
| `Queue.CreateTwiceThenDelete` | lib/WrappedQueue.js:66-108 | a second create is refused with "queue already initialized" and sends nothing; after delete, both getters throw |
| `Queue.FailedInitMixesQueues` | lib/WrappedQueue.js:110-125 | a failed `init` on a bound handle leaves the new name next to the old queue's URL |

## Left out

- Logging, the logger capability check, `logInternals` and the client configuration with its default region (lib/WrappedSqsClient.js:49-64, lib/WrappedQueue.js:33-36). They do not affect any guard or state update.
- The service itself and the network. Each command's answer is an input (`Reply`). Consistency, visibility and eventual deletion are properties of the service.
- Asynchrony and interleaving of concurrent calls on one handle. Each operation is modelled as one atomic step.
- Decimal.Parse: reads decimal fractions, exponents, hexadecimal, octal and binary literals, and "Infinity" as NaN, because the model's numbers are integers and NaN only. JavaScript reads them as numbers.
- Decimal.ToString: prints every integer in plain decimal. JavaScript switches to exponent notation from 1e21 and loses integer precision above 2^53. Infinity and -0 are not modelled.
- Codec.EncodeMessageAttributes: keys are kept in insertion order. JavaScript enumerates integer-like keys first. Boxed strings and numbers (`new String`, `new Number`) are not modelled.
- `JSON.stringify` and `JSON.parse` are function parameters. A stringify that throws (on a cycle or a BigInt) or returns `undefined` is not modelled.
- Names are strings. An `undefined` or `null` name is modelled by the empty string, the falsy case that the guards test.
- The `queueName` and `queueUrl` getters of `WrappedSqsClient` (lib/WrappedSqsClient.js:149-160) only return the fields. The model reads the fields directly.
- `delaySeconds`, `deduplicationId`, `groupId`, create attributes, tags and `limit` are passed through to the command unchecked, as in the source.
- Batch send and batch message delete do not occur in lib/WrappedSqsClient.js or lib/WrappedQueue.js and are not part of this model. lib/WrappedSqsClient.test.js calls methods the class does not define and is not part of this model.
- SqsClient.WrappedSqsClient.ReceiveMessages: uses the corrected handling of an absent `Messages` (see Findings), so it returns no messages where lib/WrappedSqsClient.js:293 throws a TypeError.
- Queue.WrappedQueue.ReceiveMessages: uses the corrected handling of an absent `Messages` (see Findings), so it returns no messages where lib/WrappedQueue.js:139 throws a TypeError.
- Queue.ProjectAttributes: every wire attribute carries a `StringValue` here. A "Binary" attribute, which carries `BinaryValue` instead, or any attribute without `StringValue` is not modelled; lib/WrappedQueue.js:143-146 projects its key to `undefined`.
- Codec.DecodeMessageAttributes: a "String" or "Number" attribute without `StringValue` is not modelled; the source decodes it to `undefined` or NaN. A "Binary" attribute throws before its value is read, as modelled.
- Common.Error: the message of a `SyntaxError` is a stand-in; `JSON.parse` reports an engine-specific text.

## Findings

| source | as written | input that shows it | evidently intended | confidence | as-written member | corrected member |
|---|---|---|---|---|---|---|
| lib/WrappedSqsClient.js:293 | `response.Messages.map(...)` dereferences `Messages` unconditionally | a ReceiveMessage response without `Messages`, which is how the service answers when it has nothing to deliver | an empty queue gives an empty list of messages | medium, not executed | `SqsClient.DecodeReceivedAsWritten` (shown by `SqsClient.EmptyReceiveThrows`) | `SqsClient.DecodeReceived` |
| lib/WrappedQueue.js:139 | `response.Messages.map(...)` dereferences `Messages` unconditionally | a ReceiveMessage response without `Messages` | an empty queue gives an empty list of messages | medium, not executed | `Queue.ProjectReceivedAsWritten` (shown by `Queue.EmptyProjectionThrows`) | `Queue.ProjectReceived` |
