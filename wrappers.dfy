/** Option and Result, failure-compatible so that `:-` propagates a Python exception. */
module Wrappers {

  datatype Option<+T> = None | Some(value: T)

  /** The Python exceptions the modelled code can raise. */
  datatype Fault =
    | KeyError(key: string)   // `d[k]` on a dict without key k
    | TypeError               // subscripting or iterating a value that does not support it
    | AttributeError          // `.items()` / `.copy()` on a value without that method
    | IndexError              // `random.choice` on an empty list

  datatype Result<+R> = Success(value: R) | Failure(error: Fault) {

    predicate IsFailure() {
      Failure?
    }

    function PropagateFailure<U>(): Result<U>
      requires Failure?
    {
      Failure(error)
    }

    function Extract(): R
      requires Success?
    {
      value
    }
  }
}
