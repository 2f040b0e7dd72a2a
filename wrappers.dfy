/** Option, for JavaScript values that may be missing and operations that may throw. */
module Wrappers {
  datatype Option<+T> = None | Some(value: T)
}
