/** The nullable values of the application (`T | null`, optional fields) as an Option. */
module Wrappers {

  datatype Option<+T> = None | Some(value: T)
}
