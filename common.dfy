/** Small wrapper types shared by the gym modules. */
module Common {

  /** A value that may be missing, such as an attribute an object need not have. */
  datatype Option<T> = None | Some(value: T) {
    function GetOr(default: T): T {
      match this
      case Some(v) => v
      case None => default
    }
  }

  /** The outcome of an operation that either succeeds or fails with a message
      (the model's stand-in for a raised exception). */
  datatype Outcome = Pass | Fail(error: string)
}
