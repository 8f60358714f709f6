/** The optional value the log returns where the JavaScript code returns `null`. */
module Wrappers {

  datatype Option<+T> = None | Some(value: T)
}
