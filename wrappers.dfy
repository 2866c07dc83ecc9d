/** Option and Result, used wherever the source returns None or raises. */
module Wrappers {

  datatype Option<+T> = None | Some(value: T)

  datatype Result<+T, +E> = Ok(value: T) | Err(error: E)

  /** Pass, or failure with a reason (a function that returns nothing or raises). */
  datatype Outcome<+E> = Pass | Fail(error: E)
}
