/** The optional value used for the nullable fields of the canvas. */
module Options {
  datatype Option<T> = None | Some(value: T)
}
