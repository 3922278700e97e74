/** An optional value: `None` stands for an argument that the caller left out (JavaScript `null`). */
module Wrappers {

  datatype Option<+T> = None | Some(value: T)
}
