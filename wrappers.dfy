/** Optional values and results with an error, used wherever the program returns None or raises. */
module Wrappers {

  datatype Option<T> = None | Some(value: T) {
    /** `x if x is not None else default` */
    function GetOr(default: T): T {
      match this
      case Some(v) => v
      case None => default
    }
  }

  datatype Result<T, E> = Ok(value: T) | Err(error: E)
}
