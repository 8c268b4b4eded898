/** The optional value used wherever the service leaves a field or a result `undefined`. */
module Wrappers {

  datatype Option<+T> = None | Some(value: T)
}
