/** Optional values: `None` stands for a C# `null` reference or an unset property. */
module Wrappers {

  datatype Option<+T> = None | Some(value: T)
}
