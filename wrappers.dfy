/** Small shared datatypes. */
module Wrappers {

  /** A value that may be absent (JavaScript `undefined` / `null` where the distinction does not matter). */
  datatype Option<+T> = None | Some(value: T)
}
