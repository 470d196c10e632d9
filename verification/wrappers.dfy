/** Absent-or-present values and success-or-error outcomes. A JavaScript
    `null`/`undefined` is `None`; a thrown `Error` is `Failure` carrying its message. */
module Wrappers {

  datatype Option<+T> = None | Some(value: T)

  datatype Result<+R, +E> = Success(value: R) | Failure(error: E)
}
