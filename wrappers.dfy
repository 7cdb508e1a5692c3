/** Option stands for a Java reference that may be null; Result for a call that returns or throws. */
module Wrappers {

  datatype Option<+T> = None | Some(value: T)

  datatype Result<+R, +E> = Ok(value: R) | Fail(failure: E) {

    predicate IsFailure() {
      Fail?
    }

    function PropagateFailure<U>(): Result<U, E>
      requires Fail?
    {
      Fail(failure)
    }

    function Extract(): R
      requires Ok?
    {
      value
    }
  }
}
