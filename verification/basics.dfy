/** The one datatype every other module shares. */
module Basics {

  datatype Option<+T> = None | Some(value: T)
}
