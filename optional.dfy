/** An optional value: stands for a null pointer or a null QString in the modelled code. */
module Optional {
  datatype Option<T> = None | Some(value: T)
}
