/** The optional value used for "no such array", "no such edge" and npos. */
module Wrappers {
  datatype Option<+T> = None | Some(value: T)
}
