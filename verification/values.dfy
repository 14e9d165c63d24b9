/**
 * Python values as the client library sees them: the JSON-shaped data that
 * travels between the caller, the payload builders and the REST connection,
 * together with Python's truthiness test and the exceptions the library raises.
 */
module Values {

  datatype Option<+T> = None | Some(value: T)

  datatype Result<+T, +E> = Ok(value: T) | Err(error: E)

  /** A JSON-compatible Python value; `Null` is Python's `None`. */
  datatype Value =
    | Null
    | Bool(b: bool)
    | Int(i: int)
    | Str(s: string)
    | List(items: seq<Value>)
    | Dict(fields: map<string, Value>)

  /** Python's `bool(v)`: `None`, `False`, `0` and empty containers are false. */
  predicate Truthy(v: Value)
  {
    match v
    case Null => false
    case Bool(b) => b
    case Int(i) => i != 0
    case Str(s) => s != ""
    case List(items) => items != []
    case Dict(fields) => fields != map[]
  }

  /**
   * The exceptions the modelled code can raise.
   * ValueError and UnknownType (HPOneViewUnknownType) are the client's designed
   * argument errors; Exception is what the payload builders raise for an
   * unsupported variant; External is anything the connection or the activity
   * waiter raises (transport errors, task time-outs and task failures), passed
   * through unchanged; RuntimeFailure is a Python runtime error (KeyError,
   * TypeError, AttributeError) that the source does not raise on purpose.
   */
  datatype Error =
    | ValueError(message: string)
    | UnknownType(message: string)
    | Exception(message: string)
    | External(detail: string)
    | RuntimeFailure(kind: string)
}
