/** A value that may be absent: JavaScript's `undefined` where the viewer's state or a
    remote record leaves a field unset. */
module Wrappers {
  datatype Option<+T> = None | Some(value: T)
}
