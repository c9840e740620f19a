/** An optional value: what Go code represents by a pointer that may be nil, or by a
    value and an error. */
module Options {
  datatype Option<+T> = None | Some(value: T)
}
