/** The Option type used for the model's fallible lookups and parses. */
module Wrappers {
  datatype Option<+T> = None | Some(value: T)
}
