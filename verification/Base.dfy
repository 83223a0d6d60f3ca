// Small shared datatypes.
module Base {
  datatype Option<+T> = None | Some(value: T)

  datatype Result<+T> = Ok(value: T) | Err

  // How an API call ends: it takes effect and returns, it takes effect but an error (or a crash) follows, or it has
  // no effect.
  datatype Fault = Fine | Lost | Refused
}
