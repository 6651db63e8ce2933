/** An optional value: stands for JavaScript's `undefined` where the handlers
    read a property or an array slot that may be absent. */
module Wrappers {

  datatype Option<+T> = None | Some(value: T)

}
