/** The one type every module shares. */
module Prelude {
  datatype Option<+T> = None | Some(value: T)
}
