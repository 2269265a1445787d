/** Failure-compatible result types: the model's counterpart of Rust's
    `Result<T, E>` and of the `?` operator (`:-` in Dafny). */
module Wrappers {

  datatype Result<+T, +E> = Ok(value: T) | Err(error: E) {

    predicate IsFailure() {
      Err?
    }

    function PropagateFailure<U>(): Result<U, E>
      requires Err?
    {
      Err(error)
    }

    function Extract(): T
      requires Ok?
    {
      value
    }

    /** The value on success, `default` on failure. */
    function GetOr(default: T): T {
      match this
      case Ok(v) => v
      case Err(_) => default
    }

    /** Forgets the success value, as a Rust `Result<()>` does. */
    function ToOutcome(): Outcome<E> {
      match this
      case Ok(_) => Pass
      case Err(e) => Fail(e)
    }
  }

  /** A `Result<(), E>`. */
  datatype Outcome<+E> = Pass | Fail(error: E)
}
