/** The optional value used for JavaScript's `null`/`undefined` and for parses that fail. */
module Wrappers {
  datatype Option<+T> = None | Some(value: T)
}
