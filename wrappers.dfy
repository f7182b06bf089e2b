/** Failure-carrying wrappers shared by every module of the model. */
module Wrappers {

  /** An optional value; also stands for JavaScript's `undefined` where the
      browser runtime yields no value. */
  datatype Option<+T> = None | Some(value: T)

  /** The outcome of an operation that either produces a value or raises. */
  datatype Result<+T, +E> = Success(value: T) | Failure(error: E)

  /** The outcome of an operation that produces nothing or raises. */
  datatype Outcome<+E> = Pass | Fail(error: E)
}
