/** The optional value used throughout the model for JavaScript's "null or a value". */
module Wrappers {

  datatype Option<+T> = None | Some(value: T)
}
