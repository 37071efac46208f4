/** Message bodies. A body is either a string or some other value `V` that
    JSON serialisation handles; `JSON.stringify` and `JSON.parse` are not
    modelled and are passed in as functions (`parse` answers `None` where
    `JSON.parse` throws). */
module Body {
  import opened Common

  datatype Body<V> = Text(s: string) | Value(v: V)

  /** `sendMessage`'s body rule: a string is sent unchanged, any other value
      is serialised. */
  function EncodeBody<V>(b: Body<V>, stringify: V -> string): (raw: string)
    ensures b.Text? ==> raw == b.s
    ensures b.Value? ==> raw == stringify(b.v)
  {
    match b
    case Text(s) => s
    case Value(v) => stringify(v)
  }

  /** `WrappedSqsClient.receiveMessages`' body rule: the parsed JSON value,
      or the raw text when it does not parse. */
  function DecodeBodyOrText<V>(raw: string, parse: string -> Option<Body<V>>): (b: Body<V>)
    ensures parse(raw).None? ==> b == Text(raw)
    ensures parse(raw).Some? ==> b == parse(raw).value
  {
    parse(raw).GetOr(Text(raw))
  }

  /** `WrappedQueue.receiveMessages`' body rule: the parsed JSON value; text
      that does not parse makes the call throw. */
  function DecodeBodyStrict<V>(raw: string, parse: string -> Option<Body<V>>): (r: Result<Body<V>>)
    ensures r.Ok? <==> parse(raw).Some?
    ensures r.Ok? ==> r.value == parse(raw).value
    ensures r.Err? ==> r.error == SyntaxError(raw)
  {
    match parse(raw)
    case Some(b) => Ok(b)
    case None => Err(SyntaxError(raw))
  }

  /** A body comes back as it was sent when serialisation round-trips for
      non-string values and a string body is not itself JSON text. */
  lemma BodyRoundTrip<V>(b: Body<V>, stringify: V -> string, parse: string -> Option<Body<V>>)
    requires b.Value? ==> parse(stringify(b.v)) == Some(b)
    requires b.Text? ==> parse(b.s) == None
    ensures DecodeBodyOrText(EncodeBody(b, stringify), parse) == b
    ensures b.Value? ==> DecodeBodyStrict(EncodeBody(b, stringify), parse) == Ok(b)
  {
  }

  /** A string body that happens to be JSON text (such as "123") is not
      received as the string that was sent but as the value it parses to. */
  lemma TextBodyReinterpreted<V>(s: string, stringify: V -> string, parse: string -> Option<Body<V>>)
    requires parse(s).Some? && parse(s) != Some(Text(s))
    ensures DecodeBodyOrText(EncodeBody(Text(s), stringify), parse) != Text(s)
  {
  }
}
