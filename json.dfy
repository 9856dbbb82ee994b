/** JSON values as Python's json module produces them, and Python truthiness. */
module Json {
  import opened Wrappers

  /** A decoded JSON value; objects are Python dicts (key order is not modelled). */
  datatype Json =
    | JNull
    | JBool(b: bool)
    | JInt(i: int)
    | JFloat(r: real)
    | JStr(s: string)
    | JArr(items: seq<Json>)
    | JObj(fields: map<string, Json>)

  /** Python's `bool(v)`: None, False, zero, "" and empty containers are falsy. */
  predicate Truthy(v: Json) {
    match v
    case JNull => false
    case JBool(b) => b
    case JInt(i) => i != 0
    case JFloat(r) => r != 0.0
    case JStr(s) => s != ""
    case JArr(items) => items != []
    case JObj(fields) => fields != map[]
  }

  /** `d.get(k, default)` on a dict. */
  function Get(d: map<string, Json>, k: string, default: Json): Json {
    if k in d then d[k] else default
  }

  /** A Python `Optional[str]` as JSON. */
  function OptStr(s: Option<string>): Json {
    match s
    case Some(x) => JStr(x)
    case None => JNull
  }

  /** `isinstance(v, (int, float))`; Python's bool is a subclass of int. */
  predicate IsNumber(v: Json) {
    v.JInt? || v.JFloat? || v.JBool?
  }
}
