/** Kotlin's nullable values and thrown exceptions, as values. */
module Wrappers {

  /** `T?` in Kotlin: `None` stands for `null`. */
  datatype Option<+T> = None | Some(value: T) {

    /** The Elvis operator `this ?: default`. */
    function GetOr(default: T): T {
      match this
      case Some(v) => v
      case None => default
    }
  }

  /** A call that either returns a value or throws the exception in `error`. */
  datatype Result<+T, +E> = Success(value: T) | Failure(error: E)
}
