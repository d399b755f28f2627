/** Failure-compatible wrappers: Kotlin's nullable values become `Option`,
    and `kotlin.Result` (success value or caught exception) becomes `Result`. */
module Wrappers {

  datatype Option<+T> = None | Some(value: T) {

    /** Kotlin's elvis operator `this ?: default`. */
    function GetOr(default: T): T {
      match this
      case Some(v) => v
      case None => default
    }
  }

  datatype Result<+R, +E> = Success(value: R) | Failure(error: E)
}
