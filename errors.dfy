/**
 * The errors the session store creates or passes on. Each variant stands for
 * one `Error` value (or one family of them) of the store, so that callers can
 * tell them apart the way the source tells them apart.
 */
module Errors {

  datatype Error =
    /** an error the key-value store client reports for a command */
    | ClientError(message: string)
    /** the shared `sessionNotFoundError` singleton: a key that holds nothing */
    | SessionNotFound
    /** `parseJSON` refused the stored payload */
    | MalformedJson
    /** the parsed payload is accepted by none of the `User` variants */
    | InvalidUser
    /** "Error retrieving user session ttl [...]", wrapping the cause's message */
    | TtlUnavailable(cause: string)
    /** "Unexpected session TTL value [...]", thrown for a negative TTL */
    | UnexpectedTtl(ttl: int)
    /** "Error setting session token": a SET the store did not acknowledge */
    | SetNotAcknowledged
    /** "Notify email value not found" */
    | NoticeEmailNotFound
    /** the cached notice email is not an `EmailString` */
    | InvalidNoticeEmail
}
