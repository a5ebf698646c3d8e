module Options {
  /** A value that may be missing: the source's `null`, `undefined` and error returns. */
  datatype Option<+T> = None | Some(value: T)
}
