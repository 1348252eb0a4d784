/** Optional and fallible values: a nullable column, a missing object, a thrown error; and counting. */
module Wrappers {
  datatype Option<+T> = None | Some(value: T)

  datatype Result<+T, +E> = Ok(value: T) | Err(error: E)

  function One(b: bool): nat {
    if b then 1 else 0
  }
}
