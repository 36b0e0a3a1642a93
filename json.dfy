/**
 * Decoded JSON values, shared by the browser client (`JSON.parse`) and the
 * backend (`json.loads`), together with the few operations the two programs
 * apply to them: Python's subscript, `in` and truthiness, and JavaScript's
 * property read.
 */
module JsonValue {
  import opened Common

  datatype Json =
    | JNull
    | JBool(b: bool)
    | JNum(n: real)
    | JStr(s: string)
    | JArr(items: seq<Json>)
    | JObj(fields: map<string, Json>)

  /** The outcome of Python's `value[key]` with a string key. */
  datatype Lookup = Found(value: Json) | KeyError | TypeError

  /**
   * Python `value[key]`: a dict answers with the entry or raises KeyError; a list,
   * a string, `None`, a number or a boolean raises TypeError for a string key.
   */
  function GetItem(j: Json, key: string): (r: Lookup)
    ensures r.Found? <==> j.JObj? && key in j.fields
    ensures r.Found? ==> r.value == j.fields[key]
    ensures r.KeyError? <==> j.JObj? && key !in j.fields
  {
    match j
    case JObj(fields) => if key in fields then Found(fields[key]) else KeyError
    case _ => TypeError
  }

  /** `needle` occurs in `hay` as a contiguous run of characters. */
  predicate IsSubstring(needle: string, hay: string)
    decreases |hay|
  {
    needle <= hay || (hay != [] && IsSubstring(needle, hay[1..]))
  }

  /**
   * Python `needle in value` for a string needle: key membership for a dict,
   * element membership for a list, substring for a string; `None` stands for the
   * TypeError raised for `None`, numbers and booleans.
   */
  function Contains(j: Json, needle: string): (r: Option<bool>)
    ensures j.JObj? ==> r == Some(needle in j.fields)
    ensures j.JArr? ==> r == Some(JStr(needle) in j.items)
    ensures r.None? <==> !(j.JObj? || j.JArr? || j.JStr?)
  {
    match j
    case JObj(fields) => Some(needle in fields)
    case JArr(items) => Some(JStr(needle) in items)
    case JStr(s) => Some(IsSubstring(needle, s))
    case _ => None
  }

  /** Python truthiness of a decoded value. */
  predicate Truthy(j: Json) {
    match j
    case JNull => false
    case JBool(b) => b
    case JNum(n) => n != 0.0
    case JStr(s) => s != ""
    case JArr(items) => items != []
    case JObj(fields) => fields != map[]
  }

  /**
   * JavaScript `value.key` on a parsed value: the entry of an object, otherwise
   * `undefined` (`None`). Reading a property of `null` throws instead; every
   * caller in the model treats that exactly like `undefined`.
   */
  function Member(j: Json, key: string): (r: Option<Json>)
    ensures r.Some? <==> j.JObj? && key in j.fields
  {
    match j
    case JObj(fields) => if key in fields then Some(fields[key]) else None
    case _ => None
  }

  /** A JSON object with a `"type"` field holding `kind` and one more field. */
  function Tagged(kind: string, key: string, payload: Json): (j: Json)
    requires key != "type"
    ensures Member(j, "type") == Some(JStr(kind))
    ensures Member(j, key) == Some(payload)
  {
    JObj(map["type" := JStr(kind), key := payload])
  }
}
