/** An optional value, standing in for a pointer the engine may return as null. */
module Options {
  datatype Option<+T> = None | Some(value: T)
}
