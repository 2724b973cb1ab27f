/**
 * Parsed JSON values, as `response.json()` hands them to the dashboard,
 * with JavaScript's property access and truthiness on them.
 */
module Json {
  import opened Wrappers

  datatype Json =
    | JNull
    | JBool(b: bool)
    | JNumber(n: real)
    | JString(s: string)
    | JArray(items: seq<Json>)
    | JObject(fields: map<string, Json>)

  /** JavaScript truthiness (a parsed JSON number is never NaN). */
  predicate Truthy(j: Json) {
    match j
    case JNull => false
    case JBool(b) => b
    case JNumber(n) => n != 0.0
    case JString(s) => s != ""
    case _ => true
  }

  /** `j.key`: `undefined` (None) unless `j` is an object that has the property. */
  function Get(j: Json, key: string): Option<Json> {
    if j.JObject? && key in j.fields then Some(j.fields[key]) else None
  }

  /** `j.key` when it is a string. */
  function GetString(j: Json, key: string): Option<string> {
    match Get(j, key)
    case Some(JString(s)) => Some(s)
    case _ => None
  }

  /** `j.key` when it is a number. */
  function GetNumber(j: Json, key: string): Option<real> {
    match Get(j, key)
    case Some(JNumber(n)) => Some(n)
    case _ => None
  }

  /** `j.key` when it is a truthy string (what `j.key || fallback` keeps). */
  function TruthyString(j: Json, key: string): Option<string> {
    match Get(j, key)
    case Some(JString(s)) => if s != "" then Some(s) else None
    case _ => None
  }

  /** `j.key` when it is a truthy number (what `j.key || fallback` keeps). */
  function TruthyNumber(j: Json, key: string): Option<real> {
    match Get(j, key)
    case Some(JNumber(n)) => if n != 0.0 then Some(n) else None
    case _ => None
  }
}
