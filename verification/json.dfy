/**
  JSON values as the JavaScript code sees them after `JSON.parse`, with the
  truthiness rule of `if (x)` / `x || y` and optional-chaining field access.
  Numbers are integers: no floating point and no NaN.
 */
module Json {
  import opened Wrappers
  import JsText

  datatype Json =
    | JNull
    | JBool(b: bool)
    | JNum(n: int)
    | JStr(s: string)
    | JArr(items: seq<Json>)
    | JObj(fields: map<string, Json>)

  /** JavaScript truthiness of a possibly-`undefined` value (`None` is `undefined`). */
  predicate Truthy(v: Option<Json>) {
    match v
    case None => false
    case Some(JNull) => false
    case Some(JBool(b)) => b
    case Some(JNum(n)) => n != 0
    case Some(JStr(s)) => s != ""
    case Some(JArr(_)) => true
    case Some(JObj(_)) => true
  }

  /**
    `v?.key` for an own data key: `undefined` unless `v` is an object holding
    the key. Keys inherited from `Object.prototype`, and `length` on strings and
    arrays, are outside this function's domain.
   */
  function Field(v: Option<Json>, key: string): Option<Json>
    requires !JsText.IsPrototypeKey(key) && key != "length"
  {
    match v
    case Some(JObj(m)) => if key in m then Some(m[key]) else None
    case _ => None
  }

  /** `v || fallback`. */
  function Or(v: Option<Json>, fallback: Json): Json {
    if Truthy(v) then v.value else fallback
  }

  /** The `{ error: msg }` body every failing route answers with. */
  function ErrorBody(msg: string): Json {
    JObj(map["error" := JStr(msg)])
  }
}
