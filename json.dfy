/**
 * Decoded JSON values as the Python code sees them after `response.json()`
 * or `json.load`. Floating-point numbers are not represented.
 */
module Json {
  import opened Wrappers

  datatype Value =
    | Null
    | Bool(b: bool)
    | Int(i: int)
    | Str(s: string)
    | List(elems: seq<Value>)
    | Object(fields: map<string, Value>)

  /** Python truthiness (`if v:`): None, False, 0 and empty containers are false. */
  predicate Truthy(v: Value) {
    match v
    case Null => false
    case Bool(b) => b
    case Int(i) => i != 0
    case Str(s) => s != ""
    case List(xs) => xs != []
    case Object(f) => f != map[]
  }

  /** Whether `len(v)` is defined: True for strings, lists and dicts. */
  predicate Sized(v: Value) {
    v.Str? || v.List? || v.Object?
  }

  /**
   * The integer `v` behaves as in `v + n`: an int is itself and a bool is 0 or 1
   * (Python's bool is an int). Any other value makes the addition raise TypeError.
   */
  function AsNumber(v: Value): (r: Option<int>)
    ensures r.Some? <==> (v.Int? || v.Bool?)
    ensures v.Int? ==> r == Some(v.i)
  {
    match v
    case Int(i) => Some(i)
    case Bool(b) => Some(if b then 1 else 0)
    case _ => None
  }

  /** `d.get(key, default)` on a dict. */
  function Get(fields: map<string, Value>, key: string, default: Value): (r: Value)
    ensures key in fields ==> r == fields[key]
    ensures key !in fields ==> r == default
  {
    if key in fields then fields[key] else default
  }
}
