/** A value that may be absent: `undefined`, `null` or a missing entry. */
module Options {
  datatype Option<T> = None | Some(value: T)
}
