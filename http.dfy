/** The error vocabulary of the handlers: every failure is an HTTP exception
    carrying a status code and a human-readable detail, and every handler
    either returns its response value or raises one. */
module Http {

  const BadRequest := 400
  const Unauthorized := 401
  const NotFound := 404

  /** An HTTP exception as the handlers raise it: status code plus detail text. */
  datatype HttpError = HttpError(status: int, detail: string)

  /** The outcome of one handler call. */
  datatype Result<+T> = Ok(value: T) | Err(error: HttpError)
}
