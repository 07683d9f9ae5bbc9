/** Option and Result, the two wrappers the rest of the model uses for Go's
    `(value, error)` pairs and for JavaScript's `undefined`. */
module Common {

  datatype Option<+T> = None | Some(value: T)

  datatype Result<+T, +E> = Ok(value: T) | Err(error: E)
}
