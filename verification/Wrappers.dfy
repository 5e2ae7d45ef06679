/** The value that may be missing, as all components use it. */
module Wrappers {
  datatype Option<T> = None | Some(value: T)
}
