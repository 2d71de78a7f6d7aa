/** Result shapes shared by every controller action of the ERP core. */
module Common {

  datatype Option<+T> = None | Some(value: T)

  /** What a state-changing action answers: success, or the HTTP status of the error response. */
  datatype Outcome = Done | Refused(code: int)

  /** An action that also hands back a value on success (a created document, a report, ...). */
  datatype Result<+T> = Ok(value: T) | Err(code: int)

  /** Status codes the controllers answer with. */
  const BAD_REQUEST: int := 400
  const NOT_FOUND: int := 404
  const UNPROCESSABLE: int := 422
  const SERVER_ERROR: int := 500
}
