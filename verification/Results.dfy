/** Option and Result values shared by every component: Go's `(T, bool)` and `(T, error)` pairs. */
module Results {

  datatype Option<+T> = None | Some(value: T)

  datatype Result<+T, +E> = Ok(value: T) | Err(error: E)
}
