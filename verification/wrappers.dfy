/** Option and Result values shared by the modules of the model. */
module Wrappers {

  datatype Option<+T> = None | Some(value: T)

  /** A computation that either produced a value or raised an error with a message. */
  datatype Result<+R, +E> = Success(value: R) | Failure(error: E)
}
