/** Dynamic values exchanged by the runtime: JSON-like data, options and results. */
module Values {

  datatype Option<+T> = None | Some(value: T)
  {
    /** The carried value, or the given one. */
    function GetOr(default: T): T {
      if Some? then value else default
    }
  }

  datatype Result<+T, +E> = Ok(value: T) | Err(error: E)

  /** A JSON-like value: what checkpoint dictionaries, tool payloads and metadata hold. */
  datatype Value =
    | Null
    | Bool(b: bool)
    | Int(n: int)
    | Str(s: string)
    | List(items: seq<Value>)
    | Dict(fields: map<string, Value>)

  type Fields = map<string, Value>

  /** `d.get(key)`: a missing key reads as Null. */
  function Get(d: Fields, key: string): Value {
    if key in d then d[key] else Null
  }

  /** Truthiness: Null, False, 0 and the empty string, list and dictionary are false. */
  predicate Truthy(v: Value) {
    match v
    case Null => false
    case Bool(b) => b
    case Int(n) => n != 0
    case Str(s) => s != ""
    case List(items) => items != []
    case Dict(fields) => fields != map[]
  }
}
