/** Optional values and results with an error message, shared by every module. */
module Wrappers {
  datatype Option<+T> = None | Some(value: T)

  /** A Python call either returns a value or raises; `Err` carries the exception's description. */
  datatype Result<+T> = Ok(value: T) | Err(error: string)
  {
    predicate IsFailure()
    {
      Err?
    }

    function PropagateFailure<U>(): Result<U>
      requires Err?
    {
      Err(error)
    }

    function Extract(): T
      requires Ok?
    {
      value
    }
  }
}
