/** Optional values, results that may be an error, and the ways a call can fail. */
module Wrappers {
  datatype Option<+T> = None | Some(value: T) {
    function GetOr(default: T): T {
      match this
      case Some(v) => v
      case None => default
    }
  }

  datatype Result<+T, +E> = Ok(value: T) | Err(error: E)

  /** A call works, fails without effect, or takes effect while an error is reported. */
  datatype Fault = Fine | Fails | Lost
}
