/** The optional value used where the source either has a value or does not. */
module Options {
  datatype Option<+T> = None | Some(value: T)
}
