/** Optional values: Python's `None` versus a present value. */
module Wrappers {
  datatype Option<T> = None | Some(value: T)
  {
    /** The value, or `default` when the value is None. */
    function UnwrapOr(default: T): T {
      match this
      case None => default
      case Some(v) => v
    }
  }

  /** The outcome of an operation that may raise: its value, or the message of the `ValueError` it raises. */
  datatype Result<T> = Success(value: T) | Failure(error: string)
}
