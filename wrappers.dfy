/** Option and Result, used for JavaScript's undefined/null and for thrown errors. */
module Wrappers {

  /** None stands for `undefined` (or `null`) where the source tests for it. */
  datatype Option<+T> = None | Some(value: T) {

    /** `x ?? d` */
    function GetOr(default: T): T {
      match this
      case Some(v) => v
      case None => default
    }
  }

  /** A value, or the error a JavaScript call throws instead. */
  datatype Result<+T, +E> = Ok(value: T) | Err(error: E)
}
