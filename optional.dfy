/** An optional value: `None` stands for a dictionary key that is absent or a Python `None`. */
module Optional {
  datatype Option<+T> = None | Some(value: T)
}
