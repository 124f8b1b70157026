/**
 * The values `json.loads` produces, and Python's truthiness on them.
 *
 * JSON numbers are kept as `real` (Python's int/float distinction and
 * float rounding are not modelled); objects are maps from key to value.
 */
module JsonValues {
  import opened Wrappers

  datatype JsonValue =
    | Null
    | Bool(b: bool)
    | Num(n: real)
    | Str(s: string)
    | Arr(elems: seq<JsonValue>)
    | Obj(fields: map<string, JsonValue>)

  /** `bool(v)` in Python: None, False, zero and empty containers are false. */
  predicate Truthy(v: JsonValue) {
    match v
    case Null => false
    case Bool(b) => b
    case Num(n) => n != 0.0
    case Str(s) => s != []
    case Arr(a) => a != []
    case Obj(m) => m != map[]
  }

  /** `d.get(key)`: the value under `key`, if any. */
  function Get(fields: map<string, JsonValue>, key: string): Option<JsonValue> {
    if key in fields then Some(fields[key]) else None
  }

  /** `d.get(key, default)`. */
  function GetOr(fields: map<string, JsonValue>, key: string, default: JsonValue): JsonValue {
    if key in fields then fields[key] else default
  }
}
