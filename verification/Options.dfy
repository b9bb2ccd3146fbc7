// The absent-or-present values of the source: SQL NULL, Python None, a nil pointer.
module Options {
  datatype Option<+T> = None | Some(value: T)
}
