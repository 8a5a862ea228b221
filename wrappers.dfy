/** The absent-or-present value used for storage lookups and decoded payloads. */
module Wrappers {

  datatype Option<+T> = None | Some(value: T)
}
