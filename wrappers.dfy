/** Optional values and results, used where the source returns `null`/`undefined`
    or throws. */
module Wrappers {

  datatype Option<+T> = None | Some(value: T) {
    /** `value ?? default` */
    function GetOr(default: T): T {
      match this
      case Some(v) => v
      case None => default
    }
  }

  /** The outcome of an operation that may throw: `Ok` for a returned value,
      `Err` for the error that reaches the caller. */
  datatype Result<+T, +E> = Ok(value: T) | Err(error: E)
}
