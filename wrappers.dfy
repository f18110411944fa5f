/** A value that may be absent: JavaScript's `undefined`/`null` for optional fields. */
module Wrappers {

  datatype Option<+T> = None | Some(value: T)
}
