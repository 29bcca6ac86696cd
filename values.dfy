/** Python values as they appear in a preference dictionary, their
    truthiness and their `str()` rendering. */
module Values {
  import opened Strings

  datatype Option<T> = None | Some(value: T)

  datatype Result<T, E> = Success(value: T) | Failure(error: E) {
    predicate IsFailure() {
      Failure?
    }

    function PropagateFailure<U>(): Result<U, E>
      requires Failure?
    {
      Failure(error)
    }

    function Extract(): T
      requires Success?
    {
      value
    }
  }

  /** The kinds of value the planner stores under a preference key: `None`,
      a `str`, an `int`, a finite `float`, `float('inf')` and a list of
      strings. */
  datatype Value =
    | Null
    | Text(s: string)
    | Int(i: int)
    | Float(x: real)
    | Infinity
    | List(items: seq<string>)

  /** Python's `bool(v)`. */
  predicate Truthy(v: Value) {
    match v
    case Null => false
    case Text(s) => s != []
    case Int(i) => i != 0
    case Float(x) => x != 0.0
    case Infinity => true
    case List(items) => items != []
  }

  /** A preference dictionary. Its keys are unordered here: nothing the
      planner computes depends on their order. */
  type Record = map<string, Value>

  /** `d.get(k)`: `None` for a missing key. */
  function Get(d: Record, k: string): Value {
    if k in d then d[k] else Null
  }

  /** `d.get(k, default)`: the default only for a missing key, not for a
      key that holds `None`. */
  function GetOr(d: Record, k: string, default: Value): Value {
    if k in d then d[k] else default
  }

  /** `repr(s)` for a string without quotes or backslashes in it. */
  function Quoted(s: string): string {
    "'" + s + "'"
  }

  /** `str(v)`. The digits Python prints for a finite float are not
      modelled: `floatRepr` stands for them. */
  function Str(v: Value, floatRepr: real -> string): string {
    match v
    case Null => "None"
    case Text(s) => s
    case Int(i) => IntToDecimal(i)
    case Float(x) => floatRepr(x)
    case Infinity => "inf"
    case List(items) => "[" + Join(seq(|items|, k requires 0 <= k < |items| => Quoted(items[k])), ", ") + "]"
  }
}
