/** A value that may be absent: a missing field, a null result, a run that a disabled step cut short. */
module Options {
  datatype Option<+T> = None | Some(value: T)
}
