/** A value that may be missing: a request field that was not sent, or a date
    string that does not parse. */
module Wrappers {

  datatype Option<+T> = None | Some(value: T)

}
