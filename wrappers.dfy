/**
 * The two result shapes shared by the model: an optional value (Python's
 * None), and a value or the exception that replaced it.
 */
module Wrappers {
  datatype Option<T> = None | Some(value: T)

  /** Ok carries the value returned; Fail names the exception raised. */
  datatype Result<T> = Ok(value: T) | Fail(error: string)
}
