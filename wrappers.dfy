/** Option and Result, the two wrappers the engine's signatures use. */
module Wrappers {

  /** A value that may be absent: the model of a nullable Kotlin `String?`. */
  datatype Option<+T> = None | Some(value: T)

  /** The outcome of an operation that can fail with an error of type E. */
  datatype Result<+T, +E> = Ok(value: T) | Err(error: E)
}
