/** Python-level values as the chat-detail function sees them: the attribute
    values of a stored DynamoDB item and the JSON values of a response body. */
module Values {

  /** A key that may be absent from a dictionary (None), or present with a value. */
  datatype Option<+T> = None | Some(value: T) {

    /** The value, or `default` when absent: Python's `d.get(k, default)`. */
    function GetOr(default: T): T {
      match this
      case Some(v) => v
      case None => default
    }
  }

  /** A dynamically typed value. DynamoDB numbers are decimals; only their
      integral values are modelled. */
  datatype Value =
    | Null
    | Bool(b: bool)
    | Num(n: int)
    | Str(s: string)
    | List(items: seq<Value>)
    | Object(fields: map<string, Value>)

  /** A Python dictionary with string keys. */
  type Dict = map<string, Value>

  /** Python truthiness: None, False, 0, "", [] and {} are false. */
  predicate Truthy(v: Value) {
    match v
    case Null => false
    case Bool(b) => b
    case Num(n) => n != 0
    case Str(s) => s != ""
    case List(xs) => xs != []
    case Object(m) => m != map[]
  }

  /** `d.get(k, default)` on a dictionary. */
  function Get(d: Dict, k: string, default: Value): Value {
    if k in d then d[k] else default
  }
}
