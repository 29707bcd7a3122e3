/** The optional value used for Swift optionals (`T?`). */
module Wrappers {
  datatype Option<+T> = None | Some(value: T)
}
