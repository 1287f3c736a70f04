/** Option and Result, the two failure-compatible wrappers the model uses for
    Python's `None` and for a call that either returns or raises. */
module Wrappers {

  datatype Option<+T> = None | Some(value: T)

  datatype Result<+T, +E> = Ok(value: T) | Err(error: E)
}
