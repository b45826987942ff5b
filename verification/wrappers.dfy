/** Swift's `Optional`, for values that are not object references. */
module Wrappers {
  datatype Option<+T> = None | Some(value: T)
}
