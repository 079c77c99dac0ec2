/** Optional values and the exception-carrying results of the gateway.

    A .NET reference that may be `null` is an `Option`: `None` is `null`.
    A method that either returns a value or throws is a `Result`: `Err`
    carries the exception that would have been thrown. */
module Wrappers {

  datatype Option<+T> = None | Some(value: T)

  /** The .NET exceptions the modelled code can raise. */
  datatype Exception =
    | ArgumentException(message: string)
    | ArgumentNullException(paramName: string)
    | NullReferenceException
    | KeyNotFoundException(key: string)

  datatype Result<+T> = Ok(value: T) | Err(error: Exception) {
    predicate IsFailure() { Err? }

    function PropagateFailure<U>(): Result<U>
      requires Err?
    {
      Err(error)
    }

    function Extract(): T
      requires Ok?
    {
      value
    }
  }
}
