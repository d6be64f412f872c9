/**
 * The boundary to rack-test: the requests the helper issues, the responses it
 * reads back, and the application under test as a function of everything
 * sent before. Only what the helper inspects is kept: the status, the
 * `Location` header and the body as JSON.parse would decode it.
 */
module Http {
  import opened Wrappers
  import opened RubyValues

  datatype Verb = Get | Post | Put | Delete

  /** One request: `post uri, params`, `get uri, params`, `put uri, params` or `delete uri`. */
  datatype Request = Request(verb: Verb, uri: string, params: map<Key, Value>)

  /**
   * A decoded JSON document. Numbers are integers only; a body that
   * JSON.parse rejects is `None` in `Response.body`.
   */
  datatype Json =
    | JNull
    | JBool(b: bool)
    | JNum(n: int)
    | JStr(s: string)
    | JArr(items: seq<Json>)
    | JObj(fields: map<string, Json>)

  /** What the helper reads of `last_response`. */
  datatype Response = Response(status: int, location: Option<string>, body: Option<Json>)

  /**
   * The application under test, seen from the helper: its answer to a
   * request given every request sent before it. A stateful server (one that
   * stores what was posted) is a function of that history.
   */
  type App = (seq<Request>, Request) -> Response

  /**
   * `doc[name]` where it yields something that can be inspected further:
   * the field of an object (`JNull` when missing). For every other kind of
   * document Ruby either raises or yields a value that fails the comparison
   * that follows, and the answer is `None`.
   */
  function Field(doc: Json, name: string): Option<Json> {
    match doc
    case JObj(fields) => Some(if name in fields then fields[name] else JNull)
    case _ => None
  }

  /** `doc.count`: the length of an array, the number of pairs of an object; `None` where Ruby raises. */
  function Count(doc: Json): Option<int> {
    match doc
    case JArr(items) => Some(|items|)
    case JObj(fields) => Some(|fields|)
    case _ => None
  }
}
