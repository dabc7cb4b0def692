/** The optional value used wherever the program has "no match". */
module Wrappers {
  datatype Option<+T> = None | Some(value: T)
}
