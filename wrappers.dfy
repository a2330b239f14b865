/** Nullable values: C# `null` for strings, dictionaries and references is `None`. */
module Wrappers {

  datatype Option<+T> = None | Some(value: T)
}
