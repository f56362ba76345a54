/** A value that may be absent: JavaScript's `null` or `undefined`. */
module Wrappers {
  datatype Option<+T> = None | Some(value: T)
}
