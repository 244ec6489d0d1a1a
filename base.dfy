/** Option and Result: the absence of a value (JavaScript's `undefined`/`null`)
    and a computation that may stop with an error. */
module Base {

  datatype Option<+T> = None | Some(value: T)

  datatype Result<+T, +E> = Ok(value: T) | Err(error: E)
}
