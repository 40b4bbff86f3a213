/** A value that may be absent: Go's zero results, missing entries and errors. */
module Options {
  datatype Option<+T> = None | Some(value: T)
}
