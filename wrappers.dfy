/** The optional-value datatype shared by the page models. */
module Wrappers {
  datatype Option<+T> = None | Some(value: T)
}
