/** Option type used for the client's "may fail" results. */
module Wrappers {
  datatype Option<+T> = None | Some(value: T)
}
