/** Option, the usual stand-in for a value that may be missing or a step that threw. */
module Wrappers {
  datatype Option<+T> = None | Some(value: T)
}
