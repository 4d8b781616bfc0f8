/** HTTP status codes and the framework's HTTP exceptions, as the auth routes use them. */
module Http {
  const UNAUTHORIZED := 401
  const NOT_FOUND := 404
  const CONFLICT := 409
  const INTERNAL_SERVER_ERROR := 500

  /** An HTTP exception (`UnauthorizedException`, `ConflictException`, ...): a status and a message. */
  datatype HttpException = HttpException(status: int, message: string)
}
