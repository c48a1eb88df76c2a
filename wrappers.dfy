/** A value that may be absent, as JavaScript's `undefined` stands for a missing property or job. */
module Wrappers {

  datatype Option<+T> = None | Some(value: T)
}
