/**
 * The outcome of a request handler: a value, or the HTTPException it raises
 * (status code and detail text). Every rejection the core raises is a constant
 * here, so "the same error" is equality of these values.
 */
module Http {

  datatype Rejection = Rejection(status: int, detail: string)

  datatype Result<+T> = Success(value: T) | Failure(error: Rejection)

  /** OAuth2PasswordBearer: no `Authorization: Bearer …` header. */
  const NotAuthenticated := Rejection(401, "Not authenticated")
  /** get_current_user: the token does not decode or its `sub` is not an int. */
  const InvalidToken := Rejection(401, "Invalid token")
  /** get_current_user: the token names a user id that is not in the table. */
  const UserNotFound := Rejection(401, "User not found")
  /** require_api_key: the X-API-Key header is missing, empty or wrong. */
  const InvalidApiKey := Rejection(401, "Invalid or missing API Key")
  /** Task routes: no task with that id owned by the caller. */
  const TaskNotFound := Rejection(404, "Task not found")
  /** signup: the username is already present. */
  const UsernameTaken := Rejection(400, "Username already taken")
  /** login: unknown username or wrong password. */
  const InvalidCredentials := Rejection(401, "Invalid credentials")
  /** An exception nobody catches, such as a failed commit. */
  const ServerError := Rejection(500, "Internal Server Error")
}
