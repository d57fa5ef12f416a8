/** Failure-compatible wrappers for the values and exceptions of the modelled C# code. */
module Wrappers {

  /** A nullable value: `None` stands for C# `null`. */
  datatype Option<+T> = None | Some(value: T) {
    function GetOr(default: T): T {
      match this
      case Some(v) => v
      case None => default
    }
  }

  /** The .NET exceptions that the modelled members can throw. */
  datatype Exception =
    | InvalidOperationException(message: string)
    | ArgumentException        // Dictionary.Add with a key already present
    | KeyNotFoundException     // Dictionary indexer with a missing key
    | IndexOutOfRangeException // array indexer out of bounds
    | InvalidCastException     // a cast to a type the object is not an instance of

  /** The outcome of a C# call that returns a value or throws. */
  datatype Result<+T> = Success(value: T) | Failure(error: Exception) {
    predicate IsFailure() { Failure? }
    function PropagateFailure<U>(): Result<U>
      requires Failure?
    {
      Failure(error)
    }
    function Extract(): T
      requires Success?
    {
      value
    }
  }

  /** The outcome of a C# `void` call: it returns or throws. */
  datatype Outcome = Pass | Fail(error: Exception) {
    predicate IsFailure() { Fail? }
    function PropagateFailure(): Outcome
      requires Fail?
    {
      this
    }
  }
}
