/** The parts of the browser platform that the worker and the page share:
    JavaScript values as JSON produces them, truthiness, URLs, requests and responses. */
module Web {
  import opened Wrappers

  /** A JavaScript value as far as this model needs one: the values `JSON.parse`
      can produce, plus `undefined` for a missing property. Numbers are reals;
      `NaN` and the infinities never come out of `JSON.parse`. */
  datatype JsValue =
    | JUndefined
    | JNull
    | JBool(b: bool)
    | JNum(n: real)
    | JStr(s: string)
    | JArr(items: seq<JsValue>)
    | JObj(fields: map<string, JsValue>)

  /** ECMAScript ToBoolean. */
  predicate Truthy(v: JsValue) {
    match v
    case JUndefined => false
    case JNull => false
    case JBool(b) => b
    case JNum(n) => n != 0.0
    case JStr(s) => s != ""
    case JArr(_) => true
    case JObj(_) => true
  }

  /** `null` or `undefined`: reading a property of one of these throws a TypeError. */
  predicate Nullish(v: JsValue) {
    v.JUndefined? || v.JNull?
  }

  /** `v.f` for a value that is not nullish; only objects have the properties read here. */
  function Prop(v: JsValue, f: string): (r: JsValue)
    ensures !v.JObj? ==> r == JUndefined
    ensures v.JObj? && f !in v.fields ==> r == JUndefined
  {
    match v
    case JObj(fs) => if f in fs then fs[f] else JUndefined
    case _ => JUndefined
  }

  /** `a || b`. */
  function Or(a: JsValue, b: JsValue): JsValue {
    if Truthy(a) then a else b
  }

  /** `a && b`. */
  function And(a: JsValue, b: JsValue): JsValue {
    if Truthy(a) then b else a
  }

  /** Text held in storage or carried by an HTTP body: either the serialisation of a
      JSON value (which `JSON.parse` turns back into that value) or text on which
      `JSON.parse` throws. */
  datatype Body = Json(value: JsValue) | NotJson(text: string)

  datatype Origin = Origin(scheme: string, hostname: string, port: string)

  /** A parsed URL with the parts the worker and the cache look at. */
  datatype Url = Url(origin: Origin, pathname: string, search: string)

  /** `Request.mode`. */
  datatype Mode = Navigate | SameOrigin | NoCors | Cors

  /** A request; `verb` is `Request.method` (`method` is a Dafny keyword). */
  datatype Request = Request(url: Url, verb: string, mode: Mode)

  datatype Response = Response(status: int, contentType: Option<string>, body: Body)

  /** `Response.ok`: the status is in the range 200-299. */
  predicate Ok(r: Response) {
    200 <= r.status <= 299
  }

  /** The network as an oracle: the response it delivers for a request, or `None`
      when `fetch` rejects (no connectivity, DNS failure, CORS refusal). */
  type Network = Request -> Option<Response>
}
