/** Optional values and results with an error message, shared by every module. */
module Wrappers {

  /** A value that may be missing: pandas' None / NaN in a numeric cell. */
  datatype Option<+T> = None | Some(value: T) {
    function GetOr(default: T): T {
      match this
      case Some(v) => v
      case None => default
    }
  }

  /** The outcome of an operation that the source ends with `raise`. */
  datatype Result<+R> = Ok(value: R) | Err(message: string)
}
