/** Optional values and results with an error, as the Python code returns None or raises. */
module Wrappers {

  /** A value that may be missing: Python's `None` or a value. */
  datatype Option<+T> = None | Some(value: T)

  /** The outcome of a call that can raise: a returned value or the raised error. */
  datatype Result<+T, +E> = Ok(value: T) | Err(error: E)

  /** Python's `x or ""` for an optional string. */
  function OrEmpty(o: Option<string>): string
  {
    if o.Some? then o.value else ""
  }
}
