/** Optional values and operation results shared by the intake and worker models. */
module Results {

  /** A value that may be absent: an optional field of a request or a stored record. */
  datatype Option<+T> = None | Some(value: T) {

    /** Returns the value, or `default` when absent. */
    function GetOr(default: T): T {
      match this
      case Some(v) => v
      case None => default
    }
  }

  /** The outcome of an operation that may fail with an error the caller sees. */
  datatype Result<+T, +E> = Ok(value: T) | Err(error: E)
}
