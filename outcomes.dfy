/** Failure-compatible result types shared by the configuration checker and
    the widget rule evaluator. */
module Outcomes {

  datatype Option<+T> = None | Some(value: T)

  /** Either a value or the error that stopped the computation; `:-` propagates
      the error, which is how a fail-fast sequence of rules is written. */
  datatype Result<+T, +E> = Success(value: T) | Failure(error: E) {
    predicate IsFailure() {
      Failure?
    }

    function PropagateFailure<U>(): Result<U, E>
      requires Failure?
    {
      Failure(error)
    }

    function Extract(): T
      requires Success?
    {
      value
    }
  }

  /** The verdict of one rule or group of rules: it passes or names the error
      it raises. `:- rule;` inside a `Result` expression stops at the error. */
  datatype Outcome<+E> = Pass | Fail(error: E) {
    predicate IsFailure() {
      Fail?
    }

    function PropagateFailure<U>(): Result<U, E>
      requires Fail?
    {
      Failure(error)
    }
  }
}
