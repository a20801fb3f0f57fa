/** The optional value used where a step of the renderer may yield nothing. */
module Wrappers {
  datatype Option<+T> = None | Some(value: T)
}
