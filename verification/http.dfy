/** An HTTP handler's answer: a body, or an error status with its message. */
module Http {

  datatype Response<+T> = Ok(body: T) | Error(code: nat, message: string)

  const BadRequest: nat := 400
  const Unauthorized: nat := 401
  const NotFound: nat := 404
  const Conflict: nat := 409
  const ServerError: nat := 500
}
