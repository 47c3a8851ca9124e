/** The optional value used for JavaScript `null` and for a missing storage key. */
module Wrappers {

  datatype Option<+T> = None | Some(value: T)
}
