/** Option and Result, the two wrappers the services use for "maybe absent" and "maybe failed". */
module Wrappers {

  /** An optional value: the repository's `Optional`, or a JavaScript property that may be unset. */
  datatype Option<+T> = None | Some(value: T)

  /** The outcome of a service call: a value, or the exception it raises. */
  datatype Result<+T, +E> = Ok(value: T) | Err(error: E)
}
