/** A possibly-null engine reference. */
module Optional {
  datatype Option<+T> = None | Some(value: T)
}
