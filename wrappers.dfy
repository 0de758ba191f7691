/** Optional values and results shared by the model. */
module Wrappers {

  /** A value that may be absent. Where the page parses a number, None stands
      for JavaScript's NaN. */
  datatype Option<+T> = None | Some(value: T)

  /** A value or the reason it could not be produced. */
  datatype Result<+R, +E> = Ok(value: R) | Err(error: E)
}
