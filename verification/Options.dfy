/** A value that may be missing: an empty slot of a ring, a NULL in an argument vector. */
module Options {

  datatype Option<+T> = None | Some(value: T)
}
