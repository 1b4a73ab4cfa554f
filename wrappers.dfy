/** Optional values, results and the status/outcome part of an HTTP reply. */
module Wrappers {

  /** An optional value: a JavaScript value that may be `undefined`. */
  datatype Option<+T> = None | Some(value: T) {
    function GetOr(default: T): T {
      match this
      case Some(v) => v
      case None => default
    }
  }

  datatype Result<+R, +E> = Success(value: R) | Failure(error: E)

  /** What a handler sends back: a status code with a JSON (or text) value, or a status code with a message. */
  datatype Response<+T> = Ok(status: nat, value: T) | Fail(status: nat, message: string)
}
