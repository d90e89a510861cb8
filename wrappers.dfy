/** Optional values and the error-carrying results that stand for the
    source's `undefined` and for a rejected promise / thrown `Error`. */
module Wrappers {

  datatype Option<+T> = None | Some(value: T)

  /** The value of a present option, or the fallback (`x ?? d`). */
  function GetOr<T>(o: Option<T>, d: T): T
  {
    match o
    case Some(v) => v
    case None => d
  }

  /** `Ok` for a resolved call, `Err(message)` for one that threw. */
  datatype Result<+T> = Ok(value: T) | Err(message: string)
}
