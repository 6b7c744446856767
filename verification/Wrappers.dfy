/** The optional value used wherever the source has a nil, a missing key or a panic. */
module Wrappers {
  datatype Option<+T> = None | Some(value: T)
}
