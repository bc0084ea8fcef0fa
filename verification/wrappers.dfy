/** The Option and Result datatypes used by the model: `Option` for a value that may be
    absent (a missing form field, JavaScript's NaN) and `Result` for an operation
    that either yields a value or reports an error. */
module Wrappers {

  datatype Option<+T> = None | Some(value: T) {

    /** The wrapped value, or `default` when there is none (JavaScript's `x || default`
        for a field whose only falsy values are "absent" and the empty string). */
    function GetOr(default: T): T {
      match this
      case Some(v) => v
      case None => default
    }
  }

  datatype Result<+R, +E> = Success(value: R) | Failure(error: E)
}
