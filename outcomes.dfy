/** Failure-carrying values shared by every module of the model. */
module Outcomes {

  datatype Option<+T> = None | Some(value: T)

  /** The Python exception an operation of the pipeline raises. */
  datatype PyError =
    | IndexError
    | KeyError
    | ValueError
    | ZeroDivisionError
    | RuntimeError
    | Exception(message: string)

  /** The value an operation returns, or the exception it raises. */
  datatype Result<+T> = Ok(value: T) | Err(error: PyError) {

    /** The value, or `default` when the operation raised. */
    function ValueOr(default: T): T {
      match this
      case Ok(v) => v
      case Err(_) => default
    }
  }

  /** Raise the exception `f` holds, or else return `v`. */
  function RaiseOr<T>(f: Option<PyError>, v: T): Result<T> {
    if f.Some? then Err(f.value) else Ok(v)
  }

  function Min(a: int, b: int): int {
    if a <= b then a else b
  }

  function Max(a: int, b: int): int {
    if a >= b then a else b
  }
}
