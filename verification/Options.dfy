/** The usual optional value, standing for a field or result that may be absent. */
module Options {
  datatype Option<+T> = None | Some(value: T)
}
