/** Option and Result, the wrappers the rest of the model returns. */
module Wrappers {

  datatype Option<+T> = None | Some(value: T)

  /** A value, or the exception a Python call would raise instead. */
  datatype Result<+T, +E> = Ok(value: T) | Err(error: E)
}
