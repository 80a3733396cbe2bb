/** The exceptions the core raises, as values. */
module Exceptions {

  /** The permission-denial errors (HTTP 403-class), one per denied caller mode
      plus the base error raised when no rule exists for a method. */
  datatype PermissionError =
    | BasePermissionError
    | NoOneAllowedError
    | AnonNotAllowedError
    | UserNotAllowedError
    | AdminNotAllowedError
  {
    /** The machine-readable `code` class attribute of each error. */
    function Code(): string
    {
      match this
      case BasePermissionError => "permission_denied"
      case NoOneAllowedError => "any_permission_denied"
      case AnonNotAllowedError => "anon_permission_denied"
      case UserNotAllowedError => "user_permission_denied"
      case AdminNotAllowedError => "admin_permission_denied"
    }
  }

  /** Python exceptions that reach the callers of the core. */
  datatype Exception =
    | PermissionDenied(error: PermissionError)
    | NotImplementedError
    | ValueError
    | TypeError
    | AttributeError
    /** Raised while a repository class is being defined; `cause` is the exception it was raised from. */
    | RepositorySubclassNotSetAttributeError(cause: Exception)
    /** The score validator's error, carrying the rejected value. */
    | ValidationError(value: int)
}
