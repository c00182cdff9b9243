/** Optional and fallible values shared by the other modules. */
module Wrappers {

  datatype Option<+T> = None | Some(value: T)

  datatype Result<+T, +E> = Ok(value: T) | Err(error: E)

  /** The first of two strings that is not empty; the empty string when both are. */
  function FirstNonEmpty(a: string, b: string): string {
    if a != "" then a else b
  }
}
