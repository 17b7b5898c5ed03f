/** Values that may be absent: the source's `null`, `undefined` and missing map entries. */
module Options {
  datatype Option<+T> = None | Some(value: T)
}
