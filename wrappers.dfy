/** Option and Result, the two wrappers the model uses for absent JSON keys and raised errors. */
module Wrappers {

  /** A JSON key that may be absent: `None` is a missing key. */
  datatype Option<T> = None | Some(value: T)

  /** The outcome of a step that may raise an exception in the source. */
  datatype Result<T, E> = Ok(value: T) | Err(error: E)
}
