/** Option and Result, the two failure-carrying datatypes the pipeline uses. */
module Wrappers {

  /** A value that may be missing (a pandas NaN / None cell, an empty selection). */
  datatype Option<T> = None | Some(value: T) {
    function GetOr(default: T): T {
      match this
      case Some(v) => v
      case None => default
    }
  }

  /** The outcome of a stage that may stop the script with an error. */
  datatype Result<T, E> = Ok(value: T) | Err(error: E)
}
