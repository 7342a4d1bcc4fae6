// The one generic result type the other modules share.
module Wrappers {
  datatype Option<+T> = None | Some(value: T)
}
