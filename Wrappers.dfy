/** Optional values and the outcome of a call into the remote backend client. */
module Wrappers {

  /** A value that may be absent (`null` / `undefined` in the application). */
  datatype Option<+T> = None | Some(value: T)

  /** What a remote call produced: its value, or the error it reported or threw. */
  datatype Outcome<+T, +E> = Ok(value: T) | Err(error: E)
}
