/** A reference that may be null: `None` stands for .NET's `null`. */
module Nullable {

  datatype Option<T> = None | Some(value: T)
}
