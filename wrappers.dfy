/** Option, the failure-carrying type the rest of the model uses. */
module Wrappers {

  datatype Option<+T> = None | Some(value: T)
}
