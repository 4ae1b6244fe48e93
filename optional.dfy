/** The outcome of a non-blocking read: a value, or nothing yet. */
module Optional {

  datatype Option<+T> = None | Some(value: T)
}
