/** Small failure-carrying datatypes shared by the modules of this project. */
module Wrappers {

  /** A value that may be missing (Python's `None`). */
  datatype Option<+T> = None | Some(value: T)

  /** Either a value or the error the source raises instead of returning. */
  datatype Result<+R, +E> = Ok(value: R) | Err(error: E)
}
