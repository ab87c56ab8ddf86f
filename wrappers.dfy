/** The optional value used wherever the source has a reference that may be null. */
module Wrappers {

  datatype Option<+T> = None | Some(value: T)
}
