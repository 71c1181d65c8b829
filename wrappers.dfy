/** The optional value used for JavaScript's `null` results and for a request that may fail. */
module Wrappers {
  datatype Option<+T> = None | Some(value: T)
}
