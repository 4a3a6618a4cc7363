/** A value that may be missing: what Go returns beside `ok` or a nil error. */
module Options {
  datatype Option<+T> = None | Some(value: T)
}
