/** A Some/None datatype standing in for the C# code's nullable references. */
module Wrappers {

  datatype Option<+T> = None | Some(value: T)
}
