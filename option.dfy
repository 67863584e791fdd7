/** An optional value: Ruby's `nil` on one side, a present value on the other. */
module Optional {
  datatype Option<+T> = None | Some(value: T)
}
