/** Failure-free wrappers shared by the other modules. */
module Prelude {
  datatype Option<+T> = None | Some(value: T) {
    function UnwrapOr(d: T): T {
      if Some? then value else d
    }
  }

  datatype Result<+T, +E> = Ok(value: T) | Err(error: E)
}
