/** An optional value, shared by the step table and the string model. */
module Optional {
  datatype Option<T> = None | Some(value: T)
}
