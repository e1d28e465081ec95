module Options {

  /** A value, or the NULL of a nullable column. */
  datatype Option<+T> = None | Some(value: T)
}
