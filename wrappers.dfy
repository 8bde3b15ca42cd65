/** The optional value used for Go's nilable results: a nil error, a nil interface, a nil pointer. */
module Wrappers {
  datatype Option<+T> = None | Some(value: T)
}
