/** Python's `None` as a value: a step that fails, or a field not yet computed. */
module Optional {
  datatype Option<+T> = None | Some(value: T)
}
