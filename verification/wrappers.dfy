/** Optional values and results, used for the source's `undefined`/`null`
    fields and for the places where it throws. */
module Wrappers {

  datatype Option<+T> = None | Some(value: T)

  /** `o ?? default`. */
  function OrElse<X>(o: Option<X>, default: X): X {
    if o.Some? then o.value else default
  }

  datatype Result<+T, +E> = Success(value: T) | Failure(error: E)
}
