/** Option and Result values used throughout the model. */
module Wrappers {

  datatype Option<+T> = None | Some(value: T)

  /** The failures the modelled code can raise. */
  datatype Error =
    | NotANumber                 // `ValueError("not a number")` / `decimal.InvalidOperation`
    | ValidationFailed(field: string)  // a pydantic field constraint rejected a value
    | NotAMapping(key: string)   // `.get` called on a value that is not a dictionary
    | NotIterable                // a `for` loop over a number or a boolean

  datatype Result<+T> = Success(value: T) | Failure(error: Error)
}
