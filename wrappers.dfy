/** Optional values and results shared by every module of the model. */
module Wrappers {

  /** A value that may be absent: `undefined`/`null` fields and lookups that miss. */
  datatype Option<+T> = None | Some(value: T) {
    function GetOr(default: T): T {
      match this
      case Some(v) => v
      case None => default
    }
  }

  /** The outcome of an operation that either returns a value or raises an error message. */
  datatype Result<+R> = Ok(value: R) | Err(message: string)
}
