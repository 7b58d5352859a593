/** The untyped key/value payloads that flow between layers of the weather
    module (`Dict[str, Any]` in the Python code). */
module Values {

  /** A payload value: a number, a text, a point in time (seconds), or `None`. */
  datatype Value = Num(n: real) | Text(s: string) | Time(t: int) | Null

  type Dict = map<string, Value>

  /** Python truthiness of a payload value. */
  predicate Truthy(v: Value) {
    match v
    case Num(n) => n != 0.0
    case Text(s) => s != ""
    case Time(_) => true
    case Null => false
  }

  /** `d.get(key, default)`. */
  function Get(d: Dict, key: string, default: Value): Value
  {
    if key in d then d[key] else default
  }
}
