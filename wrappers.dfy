/** Failure-carrying return values: an operation that throws in the modelled
    program returns `Err` (or `Some(error)`) here instead. */
module Wrappers {

  datatype Option<+T> = None | Some(value: T)

  datatype Result<+T, +E> = Ok(value: T) | Err(error: E)
}
