/** The optional value that accessors such as `cause()` return. */
module Wrappers {
  datatype Option<+T> = None | Some(value: T)
}
