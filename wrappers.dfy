/** Failure-compatible wrappers shared by the whole model: `Option` for values
    that may be missing, `Result` for operations that fail with a rendered
    error text, `Guard` for a check in the middle of a `:-` chain, and
    `Completion` for Rust code that may panic instead of returning. */
module Wrappers {

  datatype Option<+T> = None | Some(value: T) {
    predicate IsFailure() { None? }

    function PropagateFailure<U>(): Option<U>
      requires None?
    {
      None
    }

    function Extract(): T
      requires Some?
    {
      value
    }
  }

  datatype Result<+T, +E> = Success(value: T) | Failure(error: E) {
    predicate IsFailure() { Failure? }

    function PropagateFailure<U>(): Result<U, E>
      requires Failure?
    {
      Failure(error)
    }

    function Extract(): T
      requires Success?
    {
      value
    }
  }

  /** A condition checked inside a chain of `:-` steps that yields an `Option`. */
  datatype Guard = Pass | Fail {
    predicate IsFailure() { Fail? }

    function PropagateFailure<U>(): Option<U>
      requires Fail?
    {
      None
    }
  }

  function Need(condition: bool): (g: Guard)
    ensures g.Pass? <==> condition
  {
    if condition then Pass else Fail
  }

  /** The outcome of Rust code that either returns a value or panics
      (`expect`, indexing past the end of a `Vec`). */
  datatype Completion<+T> = Returns(value: T) | Panics
}
