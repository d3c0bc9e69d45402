// Values that may be absent, as the optional columns and return values of the platform are.
module Options {
  datatype Option<+T> = None | Some(value: T)
}
