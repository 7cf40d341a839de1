/** Values shared by the three packages: the outcome of a Go call that
    returns `error`, the outcome of one that returns `(T, error)`, an
    optional (nil-able) pointer, and an AWS session.

    A Go `error` is represented by its message: every error the packages
    build is an `errors.New(message)`, and an error that comes back from
    the SDK is passed on unchanged, so its message is all a caller sees. */
module Aws {

  /** A nil-able pointer field. */
  datatype Option<+T> = None | Some(value: T)

  /** The result of a Go call returning `(T, error)`: on error the value is nil. */
  datatype Result<+T> = Ok(value: T) | Err(error: string)

  /** The result of a Go call returning only `error`. */
  datatype Outcome = Pass | Fail(error: string)

  /** An AWS session, identified by the region it was configured with. */
  datatype Session = Session(region: string)
}
