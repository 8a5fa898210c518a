/** The optional value used throughout, in place of the source's `None`. */
module Options {
  datatype Option<+T> = None | Some(value: T)
}
