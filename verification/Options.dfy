module Options {

  /** A pointer that may be null, or a result that may be missing. */
  datatype Option<T> = None | Some(value: T)
}
