/** Option and Result types shared by the model: a Go `(value, error)` pair
    becomes a Result, a value that may be absent becomes an Option. */
module Wrappers {

  datatype Option<+T> = None | Some(value: T)

  /** `Err` carries the error's text, as Go's `err.Error()` would. */
  datatype Result<+T> = Ok(value: T) | Err(error: string)

  /** An operation that returns only a Go `error`: nil is `Pass`. */
  datatype Outcome = Pass | Fail(error: string)

  /** Abstract wall-clock instants; 0 stands for Go's zero `time.Time`. */
  type Time = int

  const ZeroTime: Time := 0

  /** A request form: Go's `r.FormValue(key)` returns "" for a missing key. */
  type Form = map<string, string>

  function FormValue(form: Form, key: string): string
  {
    if key in form then form[key] else ""
  }
}
