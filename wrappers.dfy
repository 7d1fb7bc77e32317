/** Failure-carrying return values: the model's stand-in for Python exceptions. */
module Wrappers {

  datatype Option<T> = None | Some(value: T)

  /** `Err` stands for an exception the source raises; nothing after it runs. */
  datatype Result<T, E> = Ok(value: T) | Err(error: E)
}
