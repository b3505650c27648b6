/** Option and outcome types shared by the playlist, manager and view modules. */
module Wrappers {

  /** A value that may be absent: Kotlin's nullable `T?`. */
  datatype Option<+T> = None | Some(value: T)

  /** The result of a call that may throw: `Fail(e)` is the exception `e`. */
  datatype Outcome<+E> = Pass | Fail(error: E)
}
