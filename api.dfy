/**
 * The upstream aggregation API as the dashboard sees it: JSON payloads, the
 * `{status, data, error}` envelope, and an HTTP response that may also fail to arrive
 * or fail to parse.
 */
module Api {
  import opened Wrappers

  /**
   * A JSON value. Objects keep their keys in insertion order, so two values are equal
   * exactly when `JSON.stringify` renders them to the same text.
   */
  datatype Json =
    | JNull
    | JBool(b: bool)
    | JNum(n: int)
    | JStr(s: string)
    | JArr(items: seq<Json>)
    | JObj(fields: seq<(string, Json)>)

  /** JavaScript truthiness: `null`, `false`, `0` and `""` are falsy; arrays and objects are not. */
  predicate Truthy(v: Json)
  {
    match v
    case JNull => false
    case JBool(b) => b
    case JNum(n) => n != 0
    case JStr(s) => s != ""
    case _ => true
  }

  /** What `JSON.stringify` sees of a value that may be `null`: an absent value prints as `null`. */
  function AsJson(o: Option<Json>): Json
  {
    match o
    case None => JNull
    case Some(v) => v
  }

  /** `o || fallback` on an optional string: a missing or empty string gives the fallback. */
  function StringOr(o: Option<string>, fallback: string): (r: string)
    ensures o.Some? && o.value != "" ==> r == o.value
    ensures o.None? || o.value == "" ==> r == fallback
  {
    if o.Some? && o.value != "" then o.value else fallback
  }

  /** The parsed `{status, data, error}` envelope; a missing field is `None`. */
  datatype Envelope = Envelope(status: Option<string>, data: Json, error: Option<string>)

  /** The body of an HTTP response: valid JSON, or text on which `response.json()` throws. */
  datatype Body = JsonBody(envelope: Envelope) | Unparseable(parseError: string)

  /** What `fetch` yields: a rejected promise (transport failure) or a response with a status code. */
  datatype HttpResponse = NetworkFailure(message: string) | Http(status: int, body: Body)

  /** `response.ok`: a status code in the 2xx range. */
  predicate IsOk(code: int)
  {
    200 <= code <= 299
  }

  /** A response together with the clock reading (milliseconds) at which it arrives. */
  datatype Arrival = Arrival(response: HttpResponse, at: int)
}
