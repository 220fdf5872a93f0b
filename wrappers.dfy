/** Option, used where the C# code has a value that may be missing. */
module Wrappers {

  datatype Option<+T> = None | Some(value: T)
}
