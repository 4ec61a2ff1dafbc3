/** The game returns `None` for "no box" and for "no selection yet". */
module Wrappers {
  datatype Option<+T> = None | Some(value: T)
}
