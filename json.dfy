/** The dynamically typed values that `json.load` produces and that the
    configuration dataclasses hold after `setattr`, with the two pieces of
    Python semantics the core relies on: truthiness (`not x`, `x or y`) and
    the numeric view used by `<` and `<=` (a non-number raises TypeError). */
module Json {
  import opened Wrappers

  datatype Value =
    | Null
    | Bool(b: bool)
    | Int(i: int)
    | Float(f: real)
    | Str(s: string)
    | List(items: seq<Value>)
    | Dict(fields: map<string, Value>)

  /** Python's truth value of a JSON value. */
  predicate Truthy(v: Value) {
    match v
    case Null => false
    case Bool(b) => b
    case Int(i) => i != 0
    case Float(f) => f != 0.0
    case Str(s) => s != ""
    case List(items) => items != []
    case Dict(fields) => fields != map[]
  }

  /** The number a value compares as (`bool` is a subclass of `int`);
      None where an ordering comparison with a number raises TypeError. */
  function AsNumber(v: Value): (r: Option<real>)
    ensures r.Some? <==> (v.Bool? || v.Int? || v.Float?)
  {
    match v
    case Bool(b) => Some(if b then 1.0 else 0.0)
    case Int(i) => Some(i as real)
    case Float(f) => Some(f)
    case _ => None
  }
}
