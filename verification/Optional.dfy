/** An absent or present value. */
module Optional {
  datatype Option<+T> = None | Some(value: T)
}
