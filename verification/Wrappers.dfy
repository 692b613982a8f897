/** Result shapes shared by every module. */
module Wrappers {
  datatype Option<+T> = None | Some(value: T)

  function OrElse<T>(o: Option<T>, default: T): T {
    if o.Some? then o.value else default
  }

  datatype Result<+T, +E> = Ok(value: T) | Err(error: E)
}
