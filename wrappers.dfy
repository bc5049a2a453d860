/** Option and Result for the Go idiom of returning `(value, error)`: an error is
    carried as the text its `Error()` method would produce. */
module Wrappers {

  datatype Option<+T> = None | Some(value: T)

  datatype Result<+T> = Ok(value: T) | Err(error: string)
}
