/** Option and Result, for JavaScript's `undefined` / `null` and for thrown errors. */
module Wrappers {

  datatype Option<+T> = None | Some(value: T) {
    /** The wrapped value, or `default` when there is none (JavaScript's `x ?? default`). */
    function GetOr(default: T): T
    {
      if Some? then value else default
    }
  }

  /** `Err` stands for an exception the source throws. */
  datatype Result<+T, +E> = Ok(value: T) | Err(error: E)
}
