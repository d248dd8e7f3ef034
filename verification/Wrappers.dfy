/** Failure-compatible value types shared by the other modules. */
module Wrappers {

  /** A value that may be absent; `None` stands for JavaScript's `undefined` and `null`. */
  datatype Option<+T> = None | Some(value: T)

  /** The result of an operation that returns nothing on success or throws `error`. */
  datatype Outcome<+E> = Pass | Fail(error: E)
}
