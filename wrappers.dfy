/** Optional values and HTTP-style results shared by every module. */
module Wrappers {

  /** A value that may be absent: JavaScript's `null`/`undefined`, Python's `None`. */
  datatype Option<+T> = None | Some(value: T) {
    function GetOr(default: T): T {
      match this
      case Some(v) => v
      case None => default
    }
  }

  /** The outcome of an endpoint: a body, or an HTTP error status with its detail text. */
  datatype Result<+T> = Ok(value: T) | Err(status: int, detail: string)
}
