/** The optional value used wherever FluidsGL may hold `undefined`. */
module Wrappers {

  datatype Option<+T> = None | Some(value: T)
}
