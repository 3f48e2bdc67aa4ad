/** The optional value the source expresses with `nil`. */
module Wrappers {
  datatype Option<T> = None | Some(value: T)
}
