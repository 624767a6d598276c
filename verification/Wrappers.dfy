/** The conventional Option type: a value, or none. */
module Wrappers {
  datatype Option<+T> = None | Some(value: T)
}
