/** The option and result datatypes shared by every module of the model. */
module Common {

  /** A value that may be absent: Python's `Optional[T]`, or a missing dict key. */
  datatype Option<+T> = None | Some(value: T) {
    function GetOr(default: T): T {
      match this
      case Some(v) => v
      case None => default
    }
  }

  /** The outcome of an operation that either succeeds or fails with an error value. */
  datatype Result<+T, +E> = Ok(value: T) | Err(error: E)
}
