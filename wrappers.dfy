/** A value that may be absent: a missing request field, or `undefined` read from a JavaScript object. */
module Wrappers {
  datatype Option<+T> = None | Some(value: T)
}
