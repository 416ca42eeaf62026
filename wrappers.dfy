/** Nullable values and thrown exceptions, as values. */
module Wrappers {

  /** Kotlin's `T?`: a value that may be null. */
  datatype Option<+T> = None | Some(value: T) {

    /** Kotlin's `x ?: default`. */
    function GetOr(default: T): T {
      match this
      case Some(v) => v
      case None => default
    }
  }

  /** The outcome of a call that may throw: the value, or the exception's message. */
  datatype Result<+T> = Ok(value: T) | Err(message: string)
}
