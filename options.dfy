/** The optional value used where the source stores a possibly-null reference. */
module Options {
  datatype Option<+T> = None | Some(value: T)
}
