/** A value or none. */
module Wrappers {

  datatype Option<T> = None | Some(value: T) {
    predicate IsFailure() { None? }

    function PropagateFailure<U>(): Option<U>
      requires IsFailure()
    {
      None
    }

    function Extract(): T
      requires !IsFailure()
    {
      value
    }
  }
}
