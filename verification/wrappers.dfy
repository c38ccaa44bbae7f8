/** Option and Result types shared by the workout model. */
module Wrappers {

  /** A cached attribute that may not have been set yet. */
  datatype Option<+T> = None | Some(value: T)

  /** The outcome of an operation that can raise an error instead of returning. */
  datatype Result<+R, +E> = Ok(value: R) | Err(error: E)
}
