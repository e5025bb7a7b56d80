/** An optional value: `None` stands for JavaScript's `null`/`undefined` or for a call that threw. */
module Wrappers {
  datatype Option<+T> = None | Some(value: T)
}
