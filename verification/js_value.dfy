/**
 JavaScript values as the builder page handles them: parsed JSON bodies,
 `undefined` for a missing property, truthiness, and object spread.
 */
module JsValue {

  /** Numbers are integers here; floating point is not modelled. */
  datatype Json =
    | Undefined
    | Null
    | Bool(b: bool)
    | Num(n: int)
    | Str(s: string)
    | Arr(items: seq<Json>)
    | Obj(fields: map<string, Json>)

  /** A plain JavaScript object: its own enumerable properties. */
  type Object = map<string, Json>

  /** Property access `o[key]`: a missing property reads as `undefined`. */
  function Get(o: Object, key: string): Json
  {
    if key in o then o[key] else Undefined
  }

  /** JavaScript truthiness: `undefined`, `null`, `false`, `0` and `""` are falsy. */
  predicate Truthy(v: Json)
  {
    match v
    case Undefined => false
    case Null => false
    case Bool(b) => b
    case Num(n) => n != 0
    case Str(s) => s != ""
    case Arr(_) => true
    case Obj(_) => true
  }

  /**
   The top-level properties `JSON.stringify` writes out for an object: every
   property except those whose value is `undefined`.
   */
  function Stringified(o: Object): (r: Object)
    ensures r.Keys == set k | k in o && !o[k].Undefined?
    ensures forall k :: k in r ==> r[k] == o[k]
  {
    map k | k in o && !o[k].Undefined? :: o[k]
  }
}
