/** A value that may be absent: a nullable column, an unset field, a failed lookup. */
module Wrappers {
  datatype Option<+T> = None | Some(value: T)
}
