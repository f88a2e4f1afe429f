/**
 * The decoded JSON values that gateway payloads hand to the object decoders,
 * as the Python dictionaries they arrive in. Floating point numbers are not
 * modelled.
 */
module Payload {

  datatype Value =
    | Null
    | Bool(b: bool)
    | Int(i: int)
    | Str(s: string)
    | Array(items: seq<Value>)
    | Object(fields: map<string, Value>)

  /** A payload dictionary: keys to JSON values. */
  type Dict = map<string, Value>

  /** Python's truth value of a JSON value: `None`, `False`, `0`, `""`, `[]` and `{}` are false. */
  predicate Truthy(v: Value)
  {
    match v
    case Null => false
    case Bool(b) => b
    case Int(i) => i != 0
    case Str(s) => s != []
    case Array(items) => items != []
    case Object(fields) => fields != map[]
  }

  /** `d.get(key, default)` */
  function Get(d: Dict, key: string, default: Value): Value
  {
    if key in d then d[key] else default
  }
}
