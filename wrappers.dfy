/** Absent-or-present values and success-or-exception results. */
module Wrappers {

  /** `None` plays the role of a Kotlin `null` return. */
  datatype Option<+T> = None | Some(value: T)

  /** `Failure` plays the role of a thrown exception. */
  datatype Result<+R, +E> = Success(value: R) | Failure(error: E)
}
