/** JavaScript's `null` / omitted-argument cases, as an explicit value. */
module Optional {

  /** `None` stands for `null` or `undefined`; `Some(v)` for a present value. */
  datatype Option<+T> = None | Some(value: T)
}
