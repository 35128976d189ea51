/** JSON values as they travel between the browser and the router, with the
    two pieces of JavaScript semantics the client code leans on: truthiness
    and property access that yields `undefined` for a missing key. */
module Json {
  import opened Wrappers

  /** A decoded JSON value. Numbers are modelled as integers only. */
  datatype Json =
    | JNull
    | JBool(b: bool)
    | JInt(n: int)
    | JStr(s: string)
    | JArr(items: seq<Json>)
    | JObj(fields: map<string, Json>)

  /** JavaScript truthiness (`if (v)`, `v || d`, `!v`) of a JSON value. */
  predicate Truthy(v: Json)
  {
    match v
    case JNull => false
    case JBool(b) => b
    case JInt(n) => n != 0
    case JStr(s) => s != ""
    case JArr(_) => true
    case JObj(_) => true
  }

  /** Truthiness of a value that may be `undefined`. */
  predicate TruthyOpt(v: Option<Json>)
  {
    v.Some? && Truthy(v.value)
  }

  /** `v.k` (and `v?.k`) on a JSON value: only an object holding `k` yields a value. */
  function Get(v: Json, k: string): (r: Option<Json>)
    ensures r.Some? <==> v.JObj? && k in v.fields
    ensures r.Some? ==> r.value == v.fields[k]
  {
    if v.JObj? && k in v.fields then Some(v.fields[k]) else None
  }

  /** `o?.k` where `o` itself may be `undefined`. */
  function GetOpt(v: Option<Json>, k: string): Option<Json>
  {
    if v.Some? then Get(v.value, k) else None
  }

  /** The string carried by `v.k` when it is a non-empty string, for `v.k || default`
      where the default is a string. A truthy value that is not a string (a
      number, an object) is returned as it is by `||`; messages here are
      strings, so such a value gives the default instead. */
  function StringOr(v: Option<Json>, default: string): (r: string)
    ensures v.Some? && v.value.JStr? && v.value.s != "" ==> r == v.value.s
    ensures !(v.Some? && v.value.JStr? && v.value.s != "") ==> r == default
  {
    if v.Some? && v.value.JStr? && v.value.s != "" then v.value.s else default
  }
}
