/** Optional values and results shared by the other modules. */
module Common {

  /** A value that may be missing, as a key absent from a Python dict. */
  datatype Option<+T> = None | Some(value: T) {
    /** The value, or `default` when it is missing (Python's `dict.get(key, default)`). */
    function GetOr(default: T): T {
      match this
      case Some(v) => v
      case None => default
    }
  }

  /** The outcome of a call that may raise: a value, or the exception's message. */
  datatype Result<+T> = Ok(value: T) | Err(error: string)
}
