/**
 * JSON values as they come out of `request.json()`, and the JavaScript
 * truthiness rules the route handlers apply to them.
 */
module JsJson {
  import opened Wrappers

  /**
   * A parsed JSON value. Numbers are exact reals: the rounding `JSON.parse`
   * applies to doubles is not modelled. Objects are maps because
   * `JSON.parse` keeps only the last of duplicate keys.
   */
  datatype Json =
    | JNull
    | JBool(b: bool)
    | JNum(n: real)
    | JStr(s: string)
    | JArray(items: seq<Json>)
    | JObject(fields: map<string, Json>)

  /**
   * JavaScript truthiness of a possibly `undefined` value: `undefined`,
   * `null`, `false`, `0` and `""` are falsy; every object and array,
   * even an empty one, is truthy.
   */
  predicate Truthy(v: Option<Json>) {
    match v
    case None => false
    case Some(JNull) => false
    case Some(JBool(b)) => b
    case Some(JNum(n)) => n != 0.0
    case Some(JStr(s)) => s != ""
    case Some(JArray(_)) => true
    case Some(JObject(_)) => true
  }

  /**
   * The value of `v || null`: the value itself when it is truthy, `null`
   * otherwise. The stored column is never `undefined`, `""`, `0` or `false`.
   */
  function OrNull(v: Option<Json>): (r: Json)
    ensures Truthy(v) ==> r == v.value
    ensures !Truthy(v) ==> r == JNull
    ensures r != JStr("") && r != JBool(false) && r != JNum(0.0)
  {
    if Truthy(v) then v.value else JNull
  }

  /**
   * The names the route handlers destructure from a request body. None of
   * them is a member a parsed value inherits from `Object.prototype`,
   * `String.prototype` or `Array.prototype`.
   */
  const HandlerKeys: set<string> := {
    "formType", "serviceId", "fullName", "email", "phone", "company",
    "industry", "details", "service", "message"
  }

  /**
   * The value a destructuring `const { key } = body` binds for one of the
   * handlers' keys, for a body that is not `null` (destructuring `null`
   * throws). Such a key is an own property or `undefined`; on a primitive
   * or an array it is `undefined`.
   */
  function Field(body: Json, key: string): (r: Option<Json>)
    requires body != JNull
    requires key in HandlerKeys
    ensures r.Some? <==> body.JObject? && key in body.fields
    ensures r.Some? ==> r.value == body.fields[key]
  {
    match body
    case JObject(m) => if key in m then Some(m[key]) else None
    case _ => None
  }

  /** The truthiness of a query-string parameter: present and not the empty string. */
  predicate ParamTruthy(p: Option<string>) {
    p.Some? && p.value != ""
  }
}
