/** Option, used for C pointers that may be NULL. */
module Wrappers {

  datatype Option<+T> = None | Some(value: T)
}
