/** Failure-compatible wrappers shared by the model.
    The source raises whatever Python raises (KeyError, TypeError, ValueError);
    the model does not tell those apart, so a failed step is just `Failure`. */
module Wrappers {

  /** An optional value, as returned by the library parsers. */
  datatype Option<+T> = None | Some(value: T) {
    predicate IsFailure() { None? }

    function PropagateFailure<U>(): Option<U>
      requires None?
    {
      None
    }

    function Extract(): T
      requires Some?
    {
      value
    }
  }

  /** The outcome of a step that may raise in the source. */
  datatype Result<+T> = Failure | Success(value: T) {
    predicate IsFailure() { Failure? }

    function PropagateFailure<U>(): Result<U>
      requires Failure?
    {
      Failure
    }

    function Extract(): T
      requires Success?
    {
      value
    }
  }

  function FromOption<T>(o: Option<T>): (r: Result<T>)
    ensures r.Success? <==> o.Some?
    ensures r.Success? ==> r.value == o.value
  {
    match o
    case Some(v) => Success(v)
    case None => Failure
  }
}
