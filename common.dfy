/** Values shared by both wrappers: optional values, results carrying the
    wrappers' error messages, ordered attribute maps, JavaScript truthiness
    of optional strings, and the "map, throwing at the first failure"
    traversal that `_.mapValues` and `Array.prototype.map` perform. */
module Common {

  datatype Option<+T> = None | Some(value: T) {
    /** The value, or `default` when absent (a JavaScript default parameter). */
    function GetOr(default: T): T {
      match this
      case Some(v) => v
      case None => default
    }
  }

  /** Every error either wrapper throws. `Message()` is the text the
      wrappers write for their own errors and the text V8 gives a `TypeError`
      from reading a property of `undefined`. The `SyntaxError` text stands in
      for whatever `JSON.parse` reports, which depends on the engine, and a
      `Remote` error carries the service's fault unchanged. */
  datatype Error =
    | Required(param: string)
    | AlreadyInitialized
    | NotInitialized
    | NotFound(queueName: string)
    | UnsupportedAttributeValueType(typeName: string)
    | TypeError(what: string)
    | SyntaxError(text: string)
    | Remote(fault: string)
  {
    function Message(): string {
      match this
      case Required(p) => p + " is required"
      case AlreadyInitialized => "queue already initialized"
      case NotInitialized => "queue not yet initialized"
      case NotFound(n) => "queue '" + n + "' not found"
      case UnsupportedAttributeValueType(t) => "unsupported attribute value type: " + t
      case TypeError(w) => "Cannot read properties of undefined (reading '" + w + "')"
      case SyntaxError(t) => "Unexpected token in JSON: " + t
      case Remote(f) => f
    }
  }

  /** A call that either returns a value or throws (rejects) with an error. */
  datatype Result<+T> = Ok(value: T) | Err(error: Error)

  /** A JavaScript object used as a dictionary: its own keys in insertion
      order, each with its value. */
  type Entries<V> = seq<(string, V)>

  function Keys<V>(e: Entries<V>): seq<string> {
    seq(|e|, i requires 0 <= i < |e| => e[i].0)
  }

  /** `!!s` for a field holding a string or `undefined`/`null`. */
  predicate Truthy(s: Option<string>) {
    s.Some? && s.value != ""
  }

  /** Applies `f` to each element in order; the first element on which `f`
      throws makes the whole traversal throw that error. */
  function MapAll<T, R>(xs: seq<T>, f: T -> Result<R>): (r: Result<seq<R>>)
    ensures r.Ok? <==> forall i :: 0 <= i < |xs| ==> f(xs[i]).Ok?
    ensures r.Ok? ==> |r.value| == |xs| && forall i :: 0 <= i < |xs| ==> f(xs[i]) == Ok(r.value[i])
    ensures r.Err? ==> exists i :: 0 <= i < |xs| && FirstFailure(xs, f, i) && r.error == f(xs[i]).error
  {
    if xs == [] then Ok([])
    else match f(xs[0])
      case Err(e) =>
        assert FirstFailure(xs, f, 0);
        Err(e)
      case Ok(y) =>
        match MapAll(xs[1..], f)
        case Err(e) =>
          assert forall i :: 0 <= i < |xs[1..]| && FirstFailure(xs[1..], f, i) ==> FirstFailure(xs, f, i + 1);
          Err(e)
        case Ok(ys) => Ok([y] + ys)
  }

  /** `xs[i]` is the first element on which `f` throws. */
  ghost predicate FirstFailure<T, R>(xs: seq<T>, f: T -> Result<R>, i: int)
    requires 0 <= i < |xs|
  {
    f(xs[i]).Err? && forall j :: 0 <= j < i ==> f(xs[j]).Ok?
  }
}
