/** Option and Result values shared by the model's modules. */
module Base {

  /** A value that may be absent, such as a key missing from a configuration dict. */
  datatype Option<+T> = None | Some(value: T) {
    /** The value, or `default` when absent (Python's `dict.get(key, default)`). */
    function GetOr(default: T): T {
      match this
      case Some(v) => v
      case None => default
    }
  }

  /** The outcome of an operation that can raise: a value or the exception it raised. */
  datatype Result<+T, +E> = Ok(value: T) | Err(error: E)
}
