/** Wrappers: `Option` stands for a value that may be
    null in the modelled system, `Result` for an operation that either
    yields a value or reports a validation error instead of throwing. */
module Wrappers {

  datatype Option<+T> = None | Some(value: T) {

    /** The wrapped value, or `default` when there is none. */
    function GetOr(default: T): T
    {
      match this
      case Some(v) => v
      case None => default
    }
  }

  datatype Result<+R, +E> = Success(value: R) | Failure(error: E)
}
