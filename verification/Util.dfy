/** Shared plumbing: optional values. */
module Util {

  datatype Option<+T> = None | Some(value: T)
}
