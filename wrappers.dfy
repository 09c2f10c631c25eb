/** Optional values and results shared by the whole model. */
module Wrappers {

  /** A nullable reference or value (`T?` in C#). */
  datatype Option<T> = None | Some(value: T) {
    function GetOr(default: T): T {
      match this
      case Some(v) => v
      case None => default
    }
  }

  /** The only exception that leaves the archive pipeline: an `HttpRequestException`
      rethrown after the last transport attempt. */
  datatype Error = HttpRequestFailed

  /** The outcome of an operation that either returns a value or throws. */
  datatype Result<T> = Ok(value: T) | Failed(error: Error)
}
