/** The optional value every component uses for Python's `None`. */
module Options {
  datatype Option<+T> = None | Some(value: T)
}
