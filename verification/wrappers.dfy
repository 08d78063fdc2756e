/** The usual optional-value datatype, used for nullable references and failed lookups. */
module Wrappers {
  datatype Option<+T> = None | Some(value: T)
}
