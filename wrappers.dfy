/** Option and Result: the null references and exceptions of the modelled code. */
module Wrappers {

  /** A value that may be absent; `None` stands for a C# or C++ null. */
  datatype Option<+T> = None | Some(value: T)

  /** The outcome of an operation that returns a value or raises. */
  datatype Result<+T, +E> = Success(value: T) | Failure(error: E)

  /** The outcome of an operation that returns nothing or raises. */
  datatype Outcome<+E> = Pass | Fail(error: E)
}
