/** Option and Result, the two failure-carrying shapes the model uses for
    SQL NULLs, missing dictionary keys and raised exceptions. */
module Wrappers {

  datatype Option<+T> = None | Some(value: T)

  datatype Result<+R, +E> = Success(value: R) | Failure(error: E)

  /** The Python exceptions the core lets escape: an index past the end
      of a list, a missing dictionary key, and a string float() cannot
      read. */
  datatype PyError = IndexError | KeyError(key: string) | ValueError

  function Min(a: int, b: int): int
  {
    if a <= b then a else b
  }
}
