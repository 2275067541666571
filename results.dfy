/** Rust's `Option` and `Result`, as the lexer uses them. */
module Results {

  datatype Option<+T> = None | Some(value: T)

  /** `Ok(value)` on success, `Err(error)` on failure; no partial value accompanies an error. */
  datatype Result<+T, +E> = Ok(value: T) | Err(error: E)
}
