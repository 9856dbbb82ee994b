/** Optional values and the outcome of a Python call that may raise. */
module Wrappers {

  datatype Option<+T> = None | Some(value: T) {

    predicate IsFailure() {
      None?
    }

    function PropagateFailure<U>(): Option<U>
      requires None?
    {
      None
    }

    function Extract(): T
      requires Some?
    {
      value
    }

    function GetOr(default: T): T {
      match this
      case Some(v) => v
      case None => default
    }
  }

  /** What a Python call produced: a value, or an exception that propagates to the caller. */
  datatype Try<+T> = Ok(value: T) | Raises {

    predicate IsFailure() {
      Raises?
    }

    function PropagateFailure<U>(): Try<U>
      requires Raises?
    {
      Raises
    }

    function Extract(): T
      requires Ok?
    {
      value
    }
  }
}
