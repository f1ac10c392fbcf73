/** The optional value of the source's `T?` types. */
module Wrappers {

  datatype Option<+T> = None | Some(value: T)
}
