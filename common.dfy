/** Option and Result, the shapes the rest of the model uses for a missing
    row and for a value-or-validation-error. */
module Common {

  datatype Option<+T> = None | Some(value: T)

  datatype Result<+T, +E> = Ok(value: T) | Err(error: E)
}
