/** A value that may be missing: C#'s `null` for reference types. */
module Wrappers {

  datatype Option<+T> = None | Some(value: T)

}
