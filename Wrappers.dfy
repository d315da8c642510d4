/** The conventional optional-value datatype used by the stripping model. */
module Wrappers {

  datatype Option<+T> = None | Some(value: T)
}
