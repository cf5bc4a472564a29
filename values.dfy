/**
 * The dynamically typed values the two clients pass around (configuration
 * entries, tool arguments, JSON schemas, tool results), with Python's
 * truthiness and the `dict.get` / `or` idioms the clients rely on.
 */
module Values {

  datatype Value =
    | Null
    | Bool(b: bool)
    | Int(i: int)
    | Text(s: string)
    | List(items: seq<Value>)
    | Dict(fields: map<string, Value>)
    | Object(id: nat)   // any other object; objects are truthy

  /** An exception: its Python type name and its `str()`. */
  datatype Error = Error(kind: string, message: string)

  /** Python's `bool(v)`. */
  predicate Truthy(v: Value) {
    match v
    case Null => false
    case Bool(b) => b
    case Int(i) => i != 0
    case Text(s) => s != ""
    case List(items) => items != []
    case Dict(fields) => fields != map[]
    case Object(_) => true
  }

  /** Python's `a or b`. */
  function Or(a: Value, b: Value): Value {
    if Truthy(a) then a else b
  }

  /** Python's `d.get(key, default)`. */
  function GetOr(d: map<string, Value>, key: string, default: Value): Value {
    if key in d then d[key] else default
  }

  const EmptyDict: Value := Dict(map[])
}
