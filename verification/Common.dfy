/** Identifiers, times in milliseconds, and optional values. */
module Common {

  datatype Option<+T> = None | Some(value: T)

  type Id = nat

  type Time = nat
}
