/** The optional value used by the whole project. */
module Wrappers {
  datatype Option<+T> = None | Some(value: T)
}
