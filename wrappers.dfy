/** The optional value used for JavaScript's `undefined`/`null` and for operations that throw. */
module Wrappers {
  datatype Option<+T> = None | Some(value: T)
}
