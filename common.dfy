/** Shared value types: optional values, results, and the application error
    that every failing step of the server reports. */
module Common {

  /** A value that may be absent (a nil pointer or a missing field). */
  datatype Option<+T> = None | Some(value: T)

  /** The outcome of a step that either produces a value or fails. */
  datatype Result<+T, +E> = Success(value: T) | Failure(error: E)

  /** An application error: the operation that raised it, its message id,
      a free-text detail and the HTTP status it is reported with. */
  datatype AppError = AppError(where: string, id: string, detail: string, status: int)

  const StatusBadRequest := 400
  const StatusUnauthorized := 401
  const StatusForbidden := 403
  const StatusInternalServerError := 500
  const StatusBadGateway := 502
}
