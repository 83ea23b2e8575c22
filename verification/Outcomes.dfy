/** Results shared by the models: an optional value, and the outcome of code that
    may run into one of its own assertions. */
module Outcomes {

  datatype Option<+T> = None | Some(value: T)

  datatype Result<+T> = Panic | Done(value: T) {
    predicate IsFailure() { Panic? }
    function PropagateFailure<U>(): (r: Result<U>)
      requires Panic?
    {
      Panic
    }
    function Extract(): (v: T)
      requires Done?
    {
      value
    }
  }
}
