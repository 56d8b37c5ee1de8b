/** The error kinds the services answer with. */
module Errors {
  datatype Error =
    | NotFound
    | InternalError(msg: string)
    | Unauthorized(msg: string)
    | Forbidden(msg: string)
    | Conflict(msg: string)
    | InvalidClient(msg: string)
    | InvalidGrant(msg: string)
    | InvalidRequest(msg: string)
}
