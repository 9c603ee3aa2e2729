/** Option, used for parse results and write errors. */
module Wrappers {

  datatype Option<+T> = None | Some(value: T)

}
