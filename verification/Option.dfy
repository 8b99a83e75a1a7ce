/** A value that may be absent: a missing file, a missing row, an empty pointer. */
module Options {
  datatype Option<+T> = None | Some(value: T)
}
