/** Values that may be absent: optional arguments, look-ups and replies. */
module Options {
  datatype Option<T> = None | Some(value: T)
}
