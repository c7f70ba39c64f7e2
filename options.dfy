/** The optional value used where the source returns None or raises. */
module Options {

  datatype Option<+T> = None | Some(value: T)
}
