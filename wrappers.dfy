/** The optional value used for regex groups that did not match and for unset strings. */
module Wrappers {

  datatype Option<+T> = None | Some(value: T)
}
