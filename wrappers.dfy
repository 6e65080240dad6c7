/** The optional value used by the path and identifier functions. */
module Wrappers {
  datatype Option<+T> = None | Some(value: T)
}
