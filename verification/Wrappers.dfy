/** The two outcome types shared by the other modules. */
module Wrappers {

  /** A value that may be absent, such as the result of a lookup. */
  datatype Option<+T> = None | Some(value: T)

  /** A value, or the error that stands in its place. */
  datatype Result<+T> = Ok(value: T) | Err(error: string)
}
