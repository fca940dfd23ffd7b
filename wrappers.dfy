/** An optional value: what a handler produces when it may or may not emit something. */
module Wrappers {

  datatype Option<+T> = None | Some(value: T)
}
