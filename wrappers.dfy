/** An optional value: the contents of a file that may be absent. */
module Wrappers {
  datatype Option<+T> = None | Some(value: T)
}
