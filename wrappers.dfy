/** The optional value used wherever the Ruby code answers `nil`. */
module Wrappers {

  datatype Option<+T> = None | Some(value: T)
}
