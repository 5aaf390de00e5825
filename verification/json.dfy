/** The values the backend exchanges with the weather provider and its own
    clients: decoded JSON documents and the Python values built from them. */
module Json {

  /** A JSON value. Python's `None` is `Null`; a dict is `Obj`, a list `Arr`. */
  datatype Json =
    | Null
    | Str(s: string)
    | Arr(items: seq<Json>)
    | Obj(fields: map<string, Json>)

  /** Python truthiness: `None`, the empty string, list and dict are false. */
  predicate Truthy(j: Json) {
    match j
    case Null => false
    case Str(s) => |s| > 0
    case Arr(a) => |a| > 0
    case Obj(m) => |m| > 0
  }

  /** `d.get(k)`: the value stored under `k`, or `None` when the key is absent. */
  function Get(m: map<string, Json>, k: string): Json {
    if k in m then m[k] else Null
  }
}
