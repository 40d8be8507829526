/** The optional value: a field a stored dictionary may lack. */
module Options {
  datatype Option<+T> = None | Some(value: T)
}
