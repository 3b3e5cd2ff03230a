/** Failure-carrying results used by the generator. */
module Wrappers {

  datatype Option<T> = None | Some(value: T)

  /** The outcome of a generation step: the text produced, or why none was. */
  datatype Result<T, E> = Ok(value: T) | Err(error: E)
}
