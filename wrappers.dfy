/** The optional value used wherever the source passes `undefined` or skips a callback. */
module Wrappers {
  datatype Option<+T> = None | Some(value: T)
}
