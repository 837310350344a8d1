/** Option, for a value that may be absent; each use says which JavaScript values `None` stands for. */
module Wrappers {

  datatype Option<+T> = None | Some(value: T)
}
