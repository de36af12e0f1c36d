/** The optional values of the source: C# `null` references and nullable strings. */
module Wrappers {
  datatype Option<+T> = None | Some(value: T)
}
