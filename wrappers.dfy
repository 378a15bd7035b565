/** The optional value used for JavaScript's `null` results throughout the model. */
module Wrappers {

  datatype Option<+T> = None | Some(value: T)
}
