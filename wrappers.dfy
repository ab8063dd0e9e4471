/** An optional value, used where the model does not know a result. */
module Wrappers {

  datatype Option<+T> = None | Some(value: T)
}
