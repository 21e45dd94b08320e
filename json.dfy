/**
 * Parsed JSON values and the JavaScript property-access rules the adapters
 * apply to them: `a.b` throws on `null`/`undefined`, `a?.b` yields
 * `undefined` instead, and `x || "fallback"` replaces falsy values.
 * JSON.parse itself is not modelled: callers pass it in as a function that
 * returns None when the text does not parse.
 */
module JsonValue {
  import opened Wrappers
  import opened Types

  datatype Json =
    | JNull
    | JBool(b: bool)
    | JNumber(n: real)
    | JString(s: string)
    | JArray(items: seq<Json>)
    | JObject(fields: map<string, Json>)

  /** The outcome of a plain property access: it throws, or yields a value (None for `undefined`). */
  datatype Access = Throws | Yields(value: Option<Json>)

  /** `j[key]` on a value that is neither null nor undefined. */
  function Property(j: Json, key: string): Option<Json>
  {
    match j
    case JObject(fields) => if key in fields then Some(fields[key]) else None
    case JArray(items) => if key == "0" && |items| > 0 then Some(items[0]) else None
    case JString(s) => if key == "0" && |s| > 0 then Some(JString([s[0]])) else None
    case _ => None
  }

  predicate IsNullish(v: Option<Json>)
  {
    v.None? || v.value.JNull?
  }

  /** `v.key` (and `v[0]` with key "0"): throws when `v` is null or undefined. */
  function Get(v: Option<Json>, key: string): (a: Access)
    ensures a.Throws? <==> IsNullish(v)
  {
    if IsNullish(v) then Throws else Yields(Property(v.value, key))
  }

  /** `v?.key` (and `v?.[0]`): undefined when `v` is null or undefined. */
  function GetOpt(v: Option<Json>, key: string): (r: Option<Json>)
    ensures IsNullish(v) ==> r.None?
  {
    if IsNullish(v) then None else Property(v.value, key)
  }

  /**
   * `v || fallback` where the truthy value is used as text: a non-empty
   * string is kept, anything else gives the fallback.
   */
  function TextOr(v: Option<Json>, fallback: string): (text: string)
    ensures v.Some? && v.value.JString? && v.value.s != "" ==> text == v.value.s
    ensures !(v.Some? && v.value.JString? && v.value.s != "") ==> text == fallback
  {
    match v
    case Some(JString(s)) => if s != "" then s else fallback
    case _ => fallback
  }

  /** The TypeError a browser raises for `null.key`. */
  function NullAccessError(key: string): Error
  {
    Error("TypeError", "Cannot read properties of null (reading '" + key + "')")
  }
}
