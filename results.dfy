/** Optional values and results of calls that can raise. */
module Results {

  /** A value that may be absent (Python's `None`). */
  datatype Option<+T> = None | Some(value: T)

  /** The outcome of a call that either returns a value or raises an exception.
      The exception's text only ever reaches the log, so it is not carried. */
  datatype Result<+T> = Ok(value: T) | Err
}
