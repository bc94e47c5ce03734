/** The `T | null` values of the hooks. */
module Wrappers {

  datatype Option<+T> = None | Some(value: T)
}
