/** The optional-value type used throughout the model, standing in for Swift's `T?`. */
module Wrappers {
  datatype Option<+T> = None | Some(value: T)
}
