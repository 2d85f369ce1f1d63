/** Option and Result, standing for Python's `None` and for a raised exception. */
module Wrappers {

  datatype Option<+T> = None | Some(value: T)

  datatype Result<+T, +E> = Ok(value: T) | Err(error: E) {
    /** The value, or `None` when the computation raised: what a `try`/`except` that stores `None` keeps. */
    function ToOption(): (o: Option<T>)
      ensures o.Some? <==> Ok?
      ensures Ok? ==> o == Some(value)
    {
      match this
      case Ok(v) => Some(v)
      case Err(_) => None
    }
  }
}
