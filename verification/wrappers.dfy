/** The optional value used across the model for JavaScript's `T | null`. */
module Wrappers {

  datatype Option<+T> = None | Some(value: T)
}
