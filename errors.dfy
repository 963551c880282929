/** Error values seen by the loader's connection layer. */
module Errors {
  /** The width of a MySQL error number. */
  newtype uint16 = x: int | 0 <= x < 0x1_0000

  /** The side of a migration that an error is attributed to. */
  datatype ErrScope = ScopeNotSet | ScopeUpstream | ScopeDownstream | ScopeInternal

  datatype DbError =
    /** A server-side error carrying a MySQL error number. */
    | MySQLError(number: uint16, message: string)
    /** Any other driver or transport failure (reset by peer, broken pipe, bad connection, ...). */
    | DriverError(message: string)
    /** An unexpected-database-state error raised by the loader itself. */
    | Unexpected(message: string)
    /** An error tagged with the side it is attributed to. */
    | WithScope(cause: DbError, scope: ErrScope)

  /**
   * The two classification predicates the retry decision relies on: whether
   * an error means the connection is lost, and whether it is a transient
   * statement error worth retrying. Both belong to packages outside this
   * model, so they are given rather than defined.
   */
  datatype Classifier = Classifier(isConnectionError: DbError -> bool, isRetryableError: DbError -> bool)
}
