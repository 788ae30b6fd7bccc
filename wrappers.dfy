/** The nullable values of the source (`T | null`, and query results whose `data` may be null). */
module Wrappers {

  datatype Option<+T> = None | Some(value: T)
}
