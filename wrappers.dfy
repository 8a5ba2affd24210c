/** Option and Result, the failure-carrying datatypes the rest of the model uses. */
module Wrappers {

  /** A value that may be absent: Python's `Optional[T]`, with `None` for absent. */
  datatype Option<+T> = None | Some(value: T) {
    function GetOr(default: T): T {
      match this
      case Some(v) => v
      case None => default
    }
  }

  /** The outcome of a call: its return value, or what it raised. */
  datatype Result<+T, +E> = Ok(value: T) | Err(error: E)
}

/** Stand-ins for the Python values the core passes through without looking at them. */
module Values {

  /** An arbitrary Python object (`Any`): a state value, a serializable payload, a detail entry. */
  type Value

  /** A Python class object, as passed in `response_type`. */
  type PyType

  newtype byte = x: int | 0 <= x < 256

  /** Python `bytes`. */
  type Bytes = seq<byte>
}
