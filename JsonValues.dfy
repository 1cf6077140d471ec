/**
 * The values `JSON.parse` produces, and the two JavaScript operations the
 * handler applies to them: truthiness and reading a named property.
 */
module JsonValues {
  import opened Wrappers
  import opened JsStrings

  datatype Json =
    | JNull
    | JBool(b: bool)
    | JNumber(n: real)
    | JString(s: JsString)
    | JArray(elements: seq<Json>)
    | JObject(members: map<JsString, Json>)

  /** `JSON.parse`: `None` when it throws. */
  type Parser = JsString -> Option<Json>

  /** JavaScript truthiness of a parsed value. */
  predicate Truthy(v: Json)
  {
    match v
    case JNull => false
    case JBool(b) => b
    case JNumber(n) => n != 0.0
    case JString(s) => s != []
    case _ => true
  }

  /**
   * `v.key` (or `v?.key`), where `None` is `undefined`. It is only used with
   * the handler's own field names (`email`, `message`, `source`, ...), which
   * no string, number, boolean or array carries, so only an object's own
   * members can supply a value.
   */
  function Get(v: Json, key: JsString): Option<Json>
  {
    if v.JObject? && key in v.members then Some(v.members[key]) else None
  }

  /** A value that `typeof x === "string"` accepts, as that string. */
  function AsString(v: Option<Json>): Option<JsString>
  {
    if v.Some? && v.value.JString? then Some(v.value.s) else None
  }
}
