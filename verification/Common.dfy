/** Small wrappers shared by every module. */
module Common {

  datatype Option<+T> = None | Some(value: T) {
    function GetOr(default: T): T {
      if None? then default else value
    }
  }

  /** The HTTP failures the CRUD layer raises. */
  datatype Error =
    | NotFound       // 404
    | Conflict       // 409
    | BadRequest     // 400
    | Forbidden      // 403
    | Unprocessable  // 422

  datatype Result<+T> = Ok(value: T) | Err(error: Error)

  function Max(a: int, b: int): int {
    if a < b then b else a
  }

  function Min(a: int, b: int): int {
    if a < b then a else b
  }
}
