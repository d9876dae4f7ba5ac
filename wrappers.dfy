/** Option and Result, shared by the pipeline's stages. */
module Wrappers {

  /** A value that may be absent: Python's `None`, or a missing-value marker. */
  datatype Option<+T> = None | Some(value: T)

  /** The outcome of a stage that may raise: `Err` stands for an exception that
      escapes to the caller. */
  datatype Result<+T, +E> = Ok(value: T) | Err(error: E)
}
