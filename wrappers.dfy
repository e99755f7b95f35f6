/** Option and Result values for the model's error paths. */
module Wrappers {

  datatype Option<+T> = None | Some(value: T) {
    function GetOr(default: T): T {
      match this
      case Some(v) => v
      case None => default
    }
  }

  datatype Result<+T, +E> = Ok(value: T) | Err(error: E)

  /** The outcome of a step that yields nothing but may fail. */
  datatype Outcome<+E> = Pass | Fail(error: E)
}
