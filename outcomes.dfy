/** Error kinds and result wrappers shared by the service operations.
    A handler in main.py either returns a value or raises an HTTP error;
    here every operation returns a `Result` instead. */
module Outcomes {

  datatype Option<+T> = None | Some(value: T)

  /** Why a token was refused: the two 401 details of main.py. */
  datatype AuthFailure = MissingToken | InvalidOrExpiredToken

  datatype Error =
    | Unauthorized(reason: AuthFailure)
    /** A schema constraint failed; `field` names the offending field. */
    | InvalidInput(field: string)
    /** Unknown guide key (HTTP 404). */
    | NotFound

  datatype Result<+T> = Ok(value: T) | Err(error: Error)

  /** Python's `x or default` on an optional string: `None` and `""` are both falsy. */
  function OrDefault(x: Option<string>, default: string): (r: string)
    ensures x.Some? && x.value != "" ==> r == x.value
    ensures x.None? || x.value == "" ==> r == default
  {
    match x
    case Some(s) => if s != "" then s else default
    case None => default
  }
}
