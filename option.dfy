/** A value that may be absent: a JavaScript property that is `undefined` or `null`. */
module Opt {

  datatype Option<+T> = None | Some(value: T)
}
