/** The database layer's errors (src/database/errors.rs), with the text each one displays. */
module DatabaseErrors {

  datatype DatabaseError =
    | ConnectionError(message: string)
    | QueryError(message: string)
    | UserNotFound
    | UserNotAuthorized

  /** The `Display` text of each error. */
  function ErrorText(e: DatabaseError): (t: string)
  {
    match e
    case ConnectionError(m) => "Database connection error: " + m
    case QueryError(m) => "Query error: " + m
    case UserNotFound => "User not found"
    case UserNotAuthorized => "User not authorized"
  }
}
