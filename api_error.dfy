/** The JSON error body every handler and middleware writes
    (api/error/error.go) and the HTTP status codes they use. */
module ApiErrors {
  const StatusOK: int := 200
  const StatusNoContent: int := 204
  const StatusBadRequest: int := 400
  const StatusUnauthorized: int := 401
  const StatusForbidden: int := 403
  const StatusNotFound: int := 404
  const StatusInternalServerError: int := 500

  /** `APIError`: the status, an identifier clients may act on (empty for
      errors they do not handle) and a message for developers. */
  datatype ApiError = ApiError(code: int, id: string, message: string)
}
