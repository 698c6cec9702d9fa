/** Absent values: JavaScript's `undefined`/`null` for optional card attributes. */
module Wrappers {

  datatype Option<+T> = None | Some(value: T)
}
