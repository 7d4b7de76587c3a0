/** Value types shared by the glide commands: Go's nilable `error` and the
    (value, error) pairs that Go functions return. */
module Errors {

  /** A Go `error` that is not nil; only its message is observable here. */
  datatype Error = Error(message: string)

  /** A nilable value, e.g. a Go `error` that may be nil (None). */
  datatype Option<+T> = None | Some(value: T)

  /** A Go `(T, error)` pair where exactly one side is meaningful. */
  datatype Result<+T> = Ok(value: T) | Fail(err: Error)
}
