/** Option and Result values shared by every module of the model. */
module Wrappers {

  /** A value that may be absent (`null`/`undefined` in the application). */
  datatype Option<T> = None | Some(value: T)

  /** The outcome of an operation that either succeeds or throws an `Error` carrying a message. */
  datatype Result<T> = Ok(value: T) | Err(error: string)
}
