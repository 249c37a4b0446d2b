/** Failure-carrying wrappers used by every module of the model. */
module Wrappers {

  /** `None` stands for JavaScript's `null` where a library call returns "nothing found". */
  datatype Option<+T> = None | Some(value: T)

  /** `Err` stands for an exception thrown by the modelled code. */
  datatype Result<+T, +E> = Ok(value: T) | Err(error: E)
}
