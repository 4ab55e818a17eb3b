/** A value that may be missing: an absent row, an empty field or a refused transaction. */
module Options {
  datatype Option<T> = None | Some(value: T)
}
