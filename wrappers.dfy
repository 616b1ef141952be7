/** Failure-carrying result types shared by every module of the model.
    A Java method that may throw is modelled as returning one of these. */
module Wrappers {

  datatype Option<+T> = None | Some(value: T)

  datatype Result<+R, +E> = Success(value: R) | Failure(error: E) {
    predicate IsFailure() { Failure? }

    function PropagateFailure<U>(): Result<U, E>
      requires Failure?
    {
      Failure(error)
    }

    function Extract(): R
      requires Success?
    {
      value
    }
  }

  datatype Outcome<+E> = Pass | Fail(error: E) {
    predicate IsFailure() { Fail? }

    function PropagateFailure(): Outcome<E>
      requires Fail?
    {
      this
    }
  }

  /** Forget a result's value, keeping whether it failed and why. */
  function ToOutcome<T, E>(x: Result<T, E>): (r: Outcome<E>)
    ensures r.Pass? <==> x.Success?
    ensures r.Fail? ==> r.error == x.error
  {
    if x.Success? then Pass else Fail(x.error)
  }
}
