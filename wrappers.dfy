/** Optional values and results, used wherever the source has `undefined` or throws. */
module Wrappers {

  /** A value that may be absent (`undefined` / `null` in the source). */
  datatype Option<+T> = None | Some(value: T) {
    function GetOr(default: T): T {
      match this
      case Some(v) => v
      case None => default
    }
  }

  /** The outcome of an operation that may throw: the error carries its message. */
  datatype Result<+T> = Ok(value: T) | Err(message: string)
}
