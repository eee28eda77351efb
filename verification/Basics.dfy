/** Names shared by every model in this project. */
module Basics {

  /** Identifiers are compared, never parsed, so a number stands for each of them. */
  type Id = nat

  /** ISO-8601 instants, as integer milliseconds. */
  type Time = int

  datatype Option<+T> = None | Some(value: T)
}
