/** What a controller hands back to Express: a JSON envelope sent with an
    HTTP status, or an error passed on to the error-handling middleware with
    `next(error)`. */
module Http {
  import opened Common
  import opened Helpers

  datatype Reply<D> =
    | Sent(status: nat, body: Response<D>)
    | Passed(message: string)

  const StatusOk: nat := 200
  const StatusCreated: nat := 201
  const StatusBadRequest: nat := 400
  const StatusUnauthorized: nat := 401
  const StatusForbidden: nat := 403
  const StatusNotFound: nat := 404
  const StatusConflict: nat := 409

  /** `res.status(code).json(errorResponse(message))` */
  function Refuse<D>(code: nat, message: string): (r: Reply<D>)
    ensures r.Sent? && r.status == code && !r.body.success && r.body.message == message
  {
    Sent(code, ErrorResponse(message, None))
  }
}
