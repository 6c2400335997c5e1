/// Option and Result values shared by every module of the model.
module Wrappers {
  datatype Option<T> = None | Some(value: T)
  {
    /// Rust's `Option::unwrap_or`.
    function UnwrapOr(default: T): (r: T)
      ensures this.Some? ==> r == this.value
      ensures this.None? ==> r == default
    {
      match this
      case Some(v) => v
      case None => default
    }
  }

  datatype Result<T, E> = Ok(value: T) | Err(error: E)
}
