/** Failure-carrying values used across the model: an optional value and a
    success-or-error result (Go's `value, err` pairs). */
module Wrappers {

  datatype Option<+T> = None | Some(value: T) {

    /** The carried value, or `default` when there is none (Go's zero value
        left behind by a failed decode). */
    function GetOr(default: T): T {
      match this
      case Some(v) => v
      case None => default
    }
  }

  datatype Result<+R, +E> = Success(value: R) | Failure(error: E)
}
