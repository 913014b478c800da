/** A value that may be absent: JavaScript's `null` / `undefined` made explicit. */
module Wrappers {

  datatype Option<+T> = None | Some(value: T)
}
