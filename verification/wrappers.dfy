/** Failure-compatible wrappers shared by the model: an optional value, a value-or-error
    result and a pass-or-fail outcome (the model's stand-ins for `null`, thrown errors and
    `undefined` fields). */
module Wrappers {

  datatype Option<+T> = None | Some(value: T) {
    function GetOr(default: T): T {
      match this
      case Some(v) => v
      case None => default
    }
  }

  datatype Result<+R, +E> = Success(value: R) | Failure(error: E)

  datatype Outcome<+E> = Pass | Fail(error: E)
}
