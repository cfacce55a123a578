/** Failure-carrying values shared by the rest of the model. */
module Wrappers {

  datatype Option<T> = None | Some(value: T)

  /** The result of an operation that Python may abort with an exception. */
  datatype Result<T, E> = Ok(value: T) | Err(error: E)
}
