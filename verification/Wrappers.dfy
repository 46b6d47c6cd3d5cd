/** Result and Option, as used by every module of the model for the Go error returns. */
module Wrappers {
  datatype Option<+T> = None | Some(value: T)

  /** The sentinel errors of internal/domain/errors.go that the modelled code returns. */
  datatype Error = NotFound | Used | Conflict | Invalid | Forbidden

  datatype Result<+T> = Ok(value: T) | Err(error: Error)
}
