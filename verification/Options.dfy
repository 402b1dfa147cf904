/** The two-way answer used throughout: a value, or none. */
module Options {
  datatype Option<+T> = None | Some(value: T)
}
