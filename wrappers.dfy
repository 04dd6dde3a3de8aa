/** Option and Result, for JavaScript values that may be `undefined` and for
    operations that throw. */
module Wrappers {

  /** `None` stands for a JavaScript `undefined` (or an absent key). */
  datatype Option<+T> = None | Some(value: T) {
    /** `o || fallback` for a value whose only falsy value is `undefined`. */
    function GetOr(fallback: T): T {
      match this
      case Some(v) => v
      case None => fallback
    }
  }

  /** The outcome of something that either returns a value or throws an
      `Error` carrying a message. */
  datatype Result<+T, +E> = Success(value: T) | Failure(error: E)
}
