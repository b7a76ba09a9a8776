/** Option and Result for the source's nullable returns and thrown exceptions. */
module Wrappers {

  datatype Option<+T> = None | Some(value: T)

  /** `Err` stands for an exception the source throws (for example IllegalArgumentException). */
  datatype Result<+T, +E> = Ok(value: T) | Err(error: E)
}
