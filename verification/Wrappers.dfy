/** Option, the stand-in for a value that may be None. */
module Wrappers {

  datatype Option<+T> = None | Some(value: T)
}
