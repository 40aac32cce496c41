/** Option and Result values used for absent request fields and for error replies. */
module Wrappers {

  datatype Option<+T> = None | Some(value: T) {
    /** The value, or `default` when absent. */
    function GetOr(default: T): T {
      match this
      case Some(v) => v
      case None => default
    }
  }

  /** A handler's outcome: a reply body, or the error it answers with. */
  datatype Result<+T, +E> = Ok(value: T) | Err(error: E)
}
