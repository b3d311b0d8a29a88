/** JSON-like values as the stream code handles them: API records, request
    parameters, the stream state and JSON schemas are all Python dicts. */
module Values {

  datatype Option<+T> = None | Some(value: T)

  datatype Result<+T, +E> = Ok(value: T) | Err(error: E)

  /** A Python value as it appears in decoded API responses and in schemas.
      Floats are not modelled. */
  datatype Value =
    | Null
    | Bool(b: bool)
    | Int(i: int)
    | Str(s: string)
    | Arr(items: seq<Value>)
    | Obj(fields: map<string, Value>)

  /** A row, a context, a request's keyword arguments: a dict keyed by strings. */
  type Record = map<string, Value>

  /** The Python exceptions that the modelled code can raise. */
  datatype Error =
    | KeyError(key: string)
    | TypeError
    | AttributeError
    | ValueError(message: string)

  /** Python truthiness: None, False, 0, "", [] and {} are false. */
  predicate Truthy(v: Value) {
    match v
    case Null => false
    case Bool(b) => b
    case Int(i) => i != 0
    case Str(s) => s != ""
    case Arr(a) => a != []
    case Obj(m) => m != map[]
  }

  /** `d.get(key)`: the value under `key`, or None when it is missing. */
  function Get(d: Record, key: string): (v: Value)
    ensures key !in d ==> v == Null
    ensures key in d ==> v == d[key]
  {
    if key in d then d[key] else Null
  }

  /** `v[key]` on a value that should be a dict: KeyError when the key is
      missing, TypeError when `v` is not a dict at all. */
  function Lookup(v: Value, key: string): Result<Value, Error> {
    match v
    case Obj(m) => if key in m then Ok(m[key]) else Err(KeyError(key))
    case _ => Err(TypeError)
  }
}
