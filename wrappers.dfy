/** The optional-value type used throughout the model for JSON properties that may be absent. */
module Wrappers {

  datatype Option<+T> = None | Some(value: T)
}
