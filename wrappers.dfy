/** Option and Result, the two failure carriers the model uses for Go's
    (value, error) returns and TypeScript's nullable fields. */
module Wrappers {

  datatype Option<T> = None | Some(value: T) {
    function GetOr(default: T): T {
      if Some? then value else default
    }
  }

  datatype Result<T, E> = Ok(value: T) | Err(error: E) {
    predicate IsOk() {
      Ok?
    }
  }
}
