/**
 * The JavaScript values a JSON request body or a parsed stored record can take,
 * with the three pieces of JavaScript semantics the handlers rely on:
 * property access, truthiness and `typeof`.
 */
module JsValues {
  import opened Wrappers

  /**
   * The bit pattern of a number `JSON.parse` can produce: a finite IEEE-754
   * double (exponent field not all ones). Negative zero is left out and stands
   * as `+0`, since `JSON.stringify` writes both as "0".
   */
  type Double = b: bv64 | b & 0x7FF0_0000_0000_0000 != 0x7FF0_0000_0000_0000 && b != 0x8000_0000_0000_0000
    witness 0

  /**
   * A value produced by `JSON.parse`. `undefined` never occurs inside JSON and
   * is written `None` where a lookup can yield it.
   */
  datatype JsValue =
    | JNull
    | JBool(b: bool)
    | JNumber(n: Double)
    | JString(s: string)
    | JArray(items: seq<JsValue>)
    | JObject(fields: map<string, JsValue>)

  /**
   * `v[name]` for a `v` that is not `null`: only an object with that own field has it
   * (none of the names looked up here lives on `Object.prototype`).
   */
  function Property(v: JsValue, name: string): (r: Option<JsValue>)
    ensures r.Some? <==> v.JObject? && name in v.fields
    ensures r.Some? ==> r.value == v.fields[name]
  {
    if v.JObject? && name in v.fields then Some(v.fields[name]) else None
  }

  /** `v[name]` when it is a string, `None` for every other outcome. */
  function StringProperty(v: JsValue, name: string): (r: Option<string>)
    ensures r.Some? <==> Property(v, name).Some? && Property(v, name).value.JString?
    ensures r.Some? ==> Property(v, name) == Some(JString(r.value))
  {
    match Property(v, name)
    case Some(JString(s)) => Some(s)
    case _ => None
  }

  /** JavaScript truthiness; `None` is `undefined`. */
  predicate Truthy(v: Option<JsValue>) {
    match v
    case None => false
    case Some(JNull) => false
    case Some(JBool(b)) => b
    case Some(JNumber(n)) => n != 0
    case Some(JString(s)) => s != ""
    case Some(JArray(_)) => true
    case Some(JObject(_)) => true
  }

  /** JavaScript `typeof`; `typeof null` is "object". */
  function TypeOf(v: Option<JsValue>): string {
    match v
    case None => "undefined"
    case Some(JNull) => "object"
    case Some(JBool(_)) => "boolean"
    case Some(JNumber(_)) => "number"
    case Some(JString(_)) => "string"
    case Some(JArray(_)) => "object"
    case Some(JObject(_)) => "object"
  }
}
