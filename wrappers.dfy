/** Option, the one failure-compatible wrapper the model needs. */
module Wrappers {

  datatype Option<+T> = None | Some(value: T)
}
