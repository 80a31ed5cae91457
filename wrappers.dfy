/** A value that may be absent, for Python's optional arguments and attributes. */
module Wrappers {
  datatype Option<T> = None | Some(value: T)
}
