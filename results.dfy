/** Optional values and the exceptions the core lets escape to its caller. */
module Results {

  /** A nullable value: a column declared `Optional[...]` or an absent row. */
  datatype Option<+T> = None | Some(value: T) {

    /** The value, or `default` when absent (Python's `x or default` on a number). */
    function GetOr(default: T): T {
      match this
      case Some(v) => v
      case None => default
    }
  }

  /** The exceptions a service call can raise; each one rolls the transaction back. */
  datatype Failure =
    | ZeroDivisionError  // a float division whose divisor is zero
    | IntegrityError     // a row rejected by a CHECK constraint when it is flushed

  /** The outcome of a call that either returns a value or raises. */
  datatype Result<+T> = Ok(value: T) | Err(failure: Failure)
}
