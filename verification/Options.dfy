/** The source's `undefined`. */
module Options {
  datatype Option<+T> = None | Some(value: T)
}
