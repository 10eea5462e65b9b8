/** HTTP error replies: a status, a machine-readable code and the human message. */
module Http {

  /** The `code` field of the JSON error envelope; `NoCode` when the handler sends none. */
  datatype Code =
    | NoCode
    | NoToken | InvalidToken | ExpiredToken | UserNotFound
    | NoAdminToken | InvalidAdminToken | ExpiredAdminToken | AdminNotFound | AdminInactive
    | AuthRequired | InsufficientPermissions
    | InvalidCredentials | AccountDisabled | EmailExists

  /** The code as it appears on the wire. */
  function Wire(c: Code): string {
    match c
    case NoCode => ""
    case NoToken => "NO_TOKEN"
    case InvalidToken => "INVALID_TOKEN"
    case ExpiredToken => "EXPIRED_TOKEN"
    case UserNotFound => "USER_NOT_FOUND"
    case NoAdminToken => "NO_ADMIN_TOKEN"
    case InvalidAdminToken => "INVALID_ADMIN_TOKEN"
    case ExpiredAdminToken => "EXPIRED_ADMIN_TOKEN"
    case AdminNotFound => "ADMIN_NOT_FOUND"
    case AdminInactive => "ADMIN_INACTIVE"
    case AuthRequired => "AUTH_REQUIRED"
    case InsufficientPermissions => "INSUFFICIENT_PERMISSIONS"
    case InvalidCredentials => "INVALID_CREDENTIALS"
    case AccountDisabled => "ACCOUNT_DISABLED"
    case EmailExists => "EMAIL_EXISTS"
  }

  /** An error response: `res.status(status).json({ error: message, code })`. */
  datatype Reply = Reply(status: int, code: Code, message: string)

  /** A handler's answer: an error reply, or a success status with its body. */
  datatype Response<+T> = Failure(reply: Reply) | Success(status: int, body: T)

  const InternalError := Reply(500, NoCode, "Error interno del servidor")
}
