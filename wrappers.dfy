/** The optional value used wherever the source returns a nullable (`Player?`, `Int?`). */
module Wrappers {
  datatype Option<+T> = None | Some(value: T)
}
