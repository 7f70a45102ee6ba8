/** Option and Result values, and the Python runtime errors the model makes explicit
    instead of excluding them by a precondition. */
module Wrappers {

  datatype Option<+T> = None | Some(value: T)

  datatype Result<+T, +E> = Success(value: T) | Failure(error: E)

  /** The exceptions the modelled Python code can raise on its own inputs. */
  datatype PyError =
    | ZeroDivisionError          // a float divided by zero
    | KeyError(key: string)      // a dict lookup of a missing key
    | IndexError                 // a list subscript out of range
    | TypeError                  // a subscript of None
    | AttributeError(name: string) // a method the value's type does not have

  function Min(a: int, b: int): int
  {
    if a <= b then a else b
  }
}
