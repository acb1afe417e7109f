/** Nullable references and thrown exceptions of the modelled C# code, as values. */
module Wrappers {

  /** A value that may be absent: `None` stands for a C# `null`. */
  datatype Option<+T> = None | Some(value: T)

  /** The outcome of an operation that may throw: `Fail` carries the exception. */
  datatype Outcome<+E> = Pass | Fail(error: E)

  /** A result that may instead be a thrown exception. */
  datatype Result<+R, +E> = Success(value: R) | Failure(error: E)
}
