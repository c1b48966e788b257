/**
 * Request bodies as the JSON body parser hands them to the controllers, the
 * JavaScript truthiness the controllers test them with, and the HTTP outcome
 * of a request handler.
 */
module JsValues {
  import opened Results

  /**
   * A JavaScript value parsed from JSON, plus `Undefined` for a property that
   * is absent. A number is a finite real: JSON has no NaN, and the ±Infinity an
   * overflowing literal parses to is truthy and defined, so it passes every
   * check a handler makes just as a non-zero number does. `Obj` holds only a
   * value's own properties.
   */
  datatype JsValue =
    | Undefined
    | Null
    | Bool(b: bool)
    | Num(n: real)
    | Str(s: string)
    | Arr(elems: seq<JsValue>)
    | Obj(fields: map<string, JsValue>)

  /** `!!v` in JavaScript: undefined, null, false, 0 and "" are falsy; every array and object is truthy. */
  predicate Truthy(v: JsValue)
  {
    match v
    case Undefined => false
    case Null => false
    case Bool(b) => b
    case Num(n) => n != 0.0
    case Str(s) => s != ""
    case Arr(_) => true
    case Obj(_) => true
  }

  /**
   * Whether `v.key` can be evaluated at all: reading a property of undefined
   * or null throws a TypeError, while any other value can be read.
   */
  predicate Readable(v: JsValue)
  {
    !v.Undefined? && !v.Null?
  }

  /**
   * `v.key` for a readable `v`: the property's value, or undefined when `v` is
   * not an object holding it. For undefined or null, where JavaScript throws,
   * it yields undefined; the handlers test `Readable` first.
   */
  function Field(v: JsValue, key: string): JsValue
  {
    if v.Obj? && key in v.fields then v.fields[key] else Undefined
  }

  /** The status a handler sets and the `error` message of its JSON body, if it sends one. */
  datatype Response = Response(status: int, error: Option<string>)

  /**
   * What one request does: the value passed to the store, when the store is
   * called at all, and the response sent.
   */
  datatype Outcome = Outcome(stored: Option<JsValue>, response: Response)

  const InternalError := "Internal server error"

  /** The catch block's answer when the handler throws before reaching the store. */
  const ThrewBeforeStore := Outcome(None, Response(500, Some(InternalError)))

  /** `res.status(400).json({ error: message })` without touching the store. */
  function BadRequest(message: string): Outcome
  {
    Outcome(None, Response(400, Some(message)))
  }

  /**
   * Pass `payload` to the store: 202 with an empty body when it succeeds, and
   * 500 "Internal server error" when it throws.
   */
  function StoreAndRespond(payload: JsValue, storeSucceeds: bool): (r: Outcome)
    ensures r.stored == Some(payload)
    ensures r.response.status == 202 <==> storeSucceeds
    ensures r.response.status != 202 ==> r.response == Response(500, Some(InternalError))
  {
    if storeSucceeds then Outcome(Some(payload), Response(202, None))
    else Outcome(Some(payload), Response(500, Some(InternalError)))
  }
}
