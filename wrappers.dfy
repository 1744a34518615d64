/** Optional values and error returns, standing for JavaScript's
    `undefined` fields and for the handlers' client-error responses. */
module Wrappers {

  datatype Option<T> = None | Some(value: T)

  datatype Result<T, E> = Success(value: T) | Failure(error: E)

  /** JavaScript's `x || d` on a number that may be missing: a missing
      field and the falsy 0 both give the default. */
  function NumberOr(o: Option<int>, d: int): int
  {
    match o
    case None => d
    case Some(v) => if v == 0 then d else v
  }

  /** JavaScript's `s || d` on a string that may be missing: a missing
      field and the falsy empty string both give the default. */
  function StringOr(o: Option<string>, d: string): string
  {
    match o
    case None => d
    case Some(v) => if v == [] then d else v
  }
}
