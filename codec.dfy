/** The static message-attribute codec of `WrappedSqsClient`: the decoded
    form maps each key to a string or a number, the wire form maps it to a
    `MessageAttributeValue` whose data type is "String" or "Number". */
module Codec {
  import opened Common
  import opened Decimal
  import opened Sqs

  /** The kinds `typeof` reports besides "string" and "number". */
  datatype OtherKind = Boolean | Object | Undefined | BigInt | Symbol | Function {
    function TypeName(): string {
      match this
      case Boolean => "boolean"
      case Object => "object"
      case Undefined => "undefined"
      case BigInt => "bigint"
      case Symbol => "symbol"
      case Function => "function"
    }
  }

  /** A JavaScript value given as an attribute value. */
  datatype JsValue = JsString(s: string) | JsNumber(n: Num) | JsOther(kind: OtherKind)

  function TypeOf(v: JsValue): string {
    match v
    case JsString(_) => "string"
    case JsNumber(_) => "number"
    case JsOther(k) => k.TypeName()
  }

  predicate Supported(v: JsValue) {
    v.JsString? || v.JsNumber?
  }

  /** `w` is the wire form of the supported value `v`. */
  predicate Encodes(v: JsValue, w: AttributeValue) {
    match v
    case JsString(s) => w == AttributeValue("String", s)
    case JsNumber(n) => w == AttributeValue("Number", ToString(n))
    case JsOther(_) => false
  }

  /** `v` is what the wire attribute `w` decodes to. */
  predicate Decodes(w: AttributeValue, v: JsValue) {
    if w.dataType == "String" then v == JsString(w.stringValue)
    else if w.dataType == "Number" then v == JsNumber(Parse(w.stringValue))
    else false
  }

  function EncodeEntry(e: (string, JsValue)): Result<(string, AttributeValue)> {
    var (key, v) := e;
    match v
    case JsString(s) => Ok((key, AttributeValue("String", s)))
    case JsNumber(n) => Ok((key, AttributeValue("Number", ToString(n))))
    case JsOther(k) => Err(UnsupportedAttributeValueType(k.TypeName()))
  }

  function DecodeEntry(e: (string, AttributeValue)): Result<(string, JsValue)> {
    var (key, w) := e;
    if w.dataType == "String" then Ok((key, JsString(w.stringValue)))
    else if w.dataType == "Number" then Ok((key, JsNumber(Parse(w.stringValue))))
    else Err(UnsupportedAttributeValueType(w.dataType))
  }

  /** `encodeMessageAttributes`: every key is kept in order, each string
      becomes a "String" attribute holding it, each number a "Number"
      attribute holding its decimal text, and the first value of any other
      kind makes the call throw, naming that value's `typeof`. An absent
      argument encodes as the empty map. */
  function EncodeMessageAttributes(attributes: Option<Entries<JsValue>>): (r: Result<Entries<AttributeValue>>)
    ensures attributes.None? ==> r == Ok([])
    ensures attributes.Some? ==> var x := attributes.value;
      && (r.Ok? <==> forall i :: 0 <= i < |x| ==> Supported(x[i].1))
      && (r.Ok? ==> Keys(r.value) == Keys(x) && forall i :: 0 <= i < |x| ==> Encodes(x[i].1, r.value[i].1))
      && (r.Err? ==> exists i :: 0 <= i < |x| && !Supported(x[i].1) && (forall j :: 0 <= j < i ==> Supported(x[j].1))
                        && r.error == UnsupportedAttributeValueType(TypeOf(x[i].1)))
  {
    var x := attributes.GetOr([]);
    var r := MapAll(x, EncodeEntry);
    assert forall i :: 0 <= i < |x| ==> (EncodeEntry(x[i]).Ok? <==> Supported(x[i].1));
    if r.Ok? then
      assert Keys(r.value) == Keys(x);
      r
    else
      r
  }

  /** `decodeMessageAttributes`: every key is kept in order, a "String"
      attribute decodes to its text unchanged, a "Number" attribute to
      `Number` of its text, and the first attribute with any other data type
      makes the call throw, naming that data type. An absent argument
      decodes as the empty map. */
  function DecodeMessageAttributes(attributes: Option<Entries<AttributeValue>>): (r: Result<Entries<JsValue>>)
    ensures attributes.None? ==> r == Ok([])
    ensures attributes.Some? ==> var w := attributes.value;
      && (r.Ok? <==> forall i :: 0 <= i < |w| ==> w[i].1.dataType in {"String", "Number"})
      && (r.Ok? ==> Keys(r.value) == Keys(w) && forall i :: 0 <= i < |w| ==> Decodes(w[i].1, r.value[i].1))
      && (r.Err? ==> exists i :: 0 <= i < |w| && w[i].1.dataType !in {"String", "Number"}
                        && (forall j :: 0 <= j < i ==> w[j].1.dataType in {"String", "Number"})
                        && r.error == UnsupportedAttributeValueType(w[i].1.dataType))
  {
    var w := attributes.GetOr([]);
    var r := MapAll(w, DecodeEntry);
    assert forall i :: 0 <= i < |w| ==> (DecodeEntry(w[i]).Ok? <==> w[i].1.dataType in {"String", "Number"});
    if r.Ok? then
      assert Keys(r.value) == Keys(w);
      r
    else
      r
  }

  /** Round trip: decoding what was encoded gives back every key with its
      value, for any map whose values are strings and numbers. */
  lemma DecodeEncode(x: Entries<JsValue>)
    requires forall i :: 0 <= i < |x| ==> Supported(x[i].1)
    ensures EncodeMessageAttributes(Some(x)).Ok?
    ensures DecodeMessageAttributes(Some(EncodeMessageAttributes(Some(x)).value)) == Ok(x)
  {
    var w := EncodeMessageAttributes(Some(x)).value;
    var r := DecodeMessageAttributes(Some(w));
    assert forall i :: 0 <= i < |w| ==> w[i].1.dataType in {"String", "Number"};
    forall i | 0 <= i < |x|
      ensures r.value[i] == x[i]
    {
      assert Keys(r.value)[i] == Keys(w)[i] == Keys(x)[i];
      if x[i].1.JsNumber? {
        ParseToString(x[i].1.n);
      }
    }
    assert r.value == x;
  }

  /** Round trip the other way: encoding what was decoded gives back the wire
      map, provided every "Number" attribute holds its number's canonical
      decimal text. */
  lemma EncodeDecode(w: Entries<AttributeValue>)
    requires forall i :: 0 <= i < |w| ==> w[i].1.dataType == "String" || (w[i].1.dataType == "Number" && Canonical(w[i].1.stringValue))
    ensures DecodeMessageAttributes(Some(w)).Ok?
    ensures EncodeMessageAttributes(Some(DecodeMessageAttributes(Some(w)).value)) == Ok(w)
  {
    var x := DecodeMessageAttributes(Some(w)).value;
    var r := EncodeMessageAttributes(Some(x));
    assert forall i :: 0 <= i < |x| ==> Supported(x[i].1);
    forall i | 0 <= i < |w|
      ensures r.value[i] == w[i]
    {
      assert Keys(r.value)[i] == Keys(x)[i] == Keys(w)[i];
    }
    assert r.value == w;
  }

  /** The reverse round trip holds exactly when every attribute is a
      "String", or a "Number" whose text is one `toString` prints. */
  lemma EncodeDecodeIff(w: Entries<AttributeValue>)
    ensures (DecodeMessageAttributes(Some(w)).Ok?
             && EncodeMessageAttributes(Some(DecodeMessageAttributes(Some(w)).value)) == Ok(w))
        <==> forall i :: 0 <= i < |w| ==>
               w[i].1.dataType == "String" || (w[i].1.dataType == "Number" && IsPrintedForm(w[i].1.stringValue))
  {
    var d := DecodeMessageAttributes(Some(w));
    if d.Ok? && EncodeMessageAttributes(Some(d.value)) == Ok(w) {
      var x := d.value;
      forall i | 0 <= i < |w|
        ensures w[i].1.dataType == "String" || (w[i].1.dataType == "Number" && IsPrintedForm(w[i].1.stringValue))
      {
        assert Decodes(w[i].1, x[i].1);
        assert Encodes(x[i].1, w[i].1);
        CanonicalIffPrintedForm(w[i].1.stringValue);
      }
    }
    if forall i :: 0 <= i < |w| ==>
         w[i].1.dataType == "String" || (w[i].1.dataType == "Number" && IsPrintedForm(w[i].1.stringValue)) {
      forall i | 0 <= i < |w|
        ensures w[i].1.dataType == "String" || (w[i].1.dataType == "Number" && Canonical(w[i].1.stringValue))
      {
        CanonicalIffPrintedForm(w[i].1.stringValue);
      }
      EncodeDecode(w);
    }
  }

  /** Without canonical text the wire map does not survive a decode and
      re-encode: "007" comes back as "7". */
  lemma EncodeDecodeNormalizes()
    ensures var w := [("k", AttributeValue("Number", "007"))];
      && DecodeMessageAttributes(Some(w)) == Ok([("k", JsNumber(Int(7)))])
      && EncodeMessageAttributes(Some(DecodeMessageAttributes(Some(w)).value)) == Ok([("k", AttributeValue("Number", "7"))])
  {
    NonCanonicalTexts();
    var w := [("k", AttributeValue("Number", "007"))];
    var x := DecodeMessageAttributes(Some(w)).value;
    assert Decodes(w[0].1, x[0].1);
    assert x == [("k", JsNumber(Int(7)))];
    assert NatText(7) == "7";
    var r := EncodeMessageAttributes(Some(x));
    assert Keys(r.value) == Keys(x) && |Keys(r.value)| == |r.value|;
    assert Encodes(x[0].1, r.value[0].1) && Keys(r.value)[0] == "k";
    assert r.value == [("k", AttributeValue("Number", "7"))];
  }
}
