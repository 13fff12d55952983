/** Values that may be absent and operations that may be refused. */
module Wrappers {

  datatype Option<+T> = None | Some(value: T)

  /** `Err` stands for the exception the source throws. */
  datatype Result<+T, +E> = Ok(value: T) | Err(error: E)
}
