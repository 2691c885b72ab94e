/** Option and Result, and the exceptions the modelled code raises. */
module Wrappers {

  datatype Option<+T> = None | Some(value: T)

  /** An exception: an `HTTPException` with its status code, or any other
      Python exception, by class name and `str(e)`. */
  datatype Error =
    | Http(code: nat, detail: string)
    | Raised(kind: string, message: string)
  {
    /** `str(e)` as the ingestion pipeline records it. */
    function Message(): string {
      match this
      case Http(_, detail) => detail
      case Raised(_, message) => message
    }
  }

  datatype Result<+T> = Ok(value: T) | Err(error: Error) {
    predicate IsFailure() { Err? }
    function PropagateFailure<U>(): Result<U>
      requires Err?
    {
      Err(error)
    }
    function Extract(): T
      requires Ok?
    {
      value
    }
  }

  const Forbidden: nat := 403
  const NotFound: nat := 404
  const BadRequest: nat := 400

  function AttributeError(message: string): Error { Raised("AttributeError", message) }
  function TypeError(message: string): Error { Raised("TypeError", message) }
  function ValueError(message: string): Error { Raised("ValueError", message) }
}
