/** The Option and Result types shared by the rest of the model. */
module Wrappers {

  /** An optional value; also stands for a JavaScript argument or member that is `undefined`. */
  datatype Option<+T> = None | Some(value: T)

  /** The outcome of an operation that may throw: its value, or the thrown error. */
  datatype Result<+R, +E> = Success(value: R) | Failure(error: E)
}
