/** Error codes raised by the service layer, and the wrappers that carry them. */
module Errors {

  /** The constants of CustomErrorCode that the modelled services throw. */
  datatype ErrorCode =
    | USER_NOT_FOUND
    | INVALID_OFFICE_ID
    | OFFICE_NOT_OWNED_BY_OWNER
    | LEASE_NOT_FOUND
    | CHAT_ROOM_NOT_FOUND
    | CHAT_ROOM_ALREADY_EXISTS
    | REVIEW_NOT_EXISTS
    | REVIEW_OWNER_NOT_MATCH
    | LEASE_OWNER_NOT_MATCH
    | REVIEW_ALREADY_EXISTS
    | LEASE_NOT_EXPIRED

  datatype Option<+T> = None | Some(value: T)

  /** A service call either returns a value or throws a CustomException with a code. */
  datatype Result<+T> = Ok(value: T) | Err(error: ErrorCode)

  /** A service call that returns nothing (Java `void`) either passes or throws. */
  datatype Outcome = Pass | Fail(error: ErrorCode)
}
