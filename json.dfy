/** JSON values as `JSON.parse` produces them (the value kinds of section 3 of
    RFC 8259), and the two JavaScript operations the gateway applies to them:
    property access and truthiness. */
module Json {

  /** An object is a map from member names to values: `JSON.parse` keeps the
      last of duplicated names, and member order plays no part here. */
  datatype Json =
    | JNull
    | JBool(b: bool)
    | JNumber(n: real)
    | JString(s: string)
    | JArray(items: seq<Json>)
    | JObject(fields: map<string, Json>)

  /** The outcome of evaluating `v.key` in JavaScript. */
  datatype Access = Undefined | Defined(value: Json) | TypeError(message: string)

  /** The message V8 gives the `TypeError` raised by reading a property of `null`. */
  function NullReadMessage(key: string): string
  {
    "Cannot read properties of null (reading '" + key + "')"
  }

  /** `v.key` for a key that names no built-in property of arrays, strings,
      numbers or booleans: only objects have it, and only `null` throws. */
  function Prop(v: Json, key: string): (a: Access)
    ensures a.TypeError? <==> v == JNull
    ensures a.Defined? <==> v.JObject? && key in v.fields
    ensures a.Defined? ==> a.value == v.fields[key]
    ensures a.TypeError? ==> a.message == NullReadMessage(key)
  {
    match v
    case JNull => TypeError(NullReadMessage(key))
    case JObject(m) => if key in m then Defined(m[key]) else Undefined
    case _ => Undefined
  }

  /** `typeof a === 'string'`. */
  predicate IsStringValue(a: Access)
  {
    a.Defined? && a.value.JString?
  }

  /** The member `key` of `v` exists and holds a string. */
  predicate HasString(v: Json, key: string)
  {
    v.JObject? && key in v.fields && v.fields[key].JString?
  }

  /** The member `key` of `v` as a string; only called when `HasString` holds. */
  function StringAt(v: Json, key: string): string
    requires HasString(v, key)
  {
    v.fields[key].s
  }

  /** JavaScript truthiness of a parsed value (JSON has no `NaN` and no `undefined`). */
  predicate Truthy(v: Json)
  {
    match v
    case JNull => false
    case JBool(b) => b
    case JNumber(n) => n != 0.0
    case JString(s) => s != ""
    case _ => true
  }

  lemma TypeofStringIsHasString(v: Json, key: string)
    ensures IsStringValue(Prop(v, key)) <==> HasString(v, key)
  {
  }
}
