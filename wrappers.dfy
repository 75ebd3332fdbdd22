/** The optional value used for Qt's nullable item pointers and for signals that may not fire. */
module Wrappers {
  datatype Option<+T> = None | Some(value: T)
}
