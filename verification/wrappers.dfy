/** Optional values and handler outcomes shared by every controller. */
module Wrappers {

  /** A `*T` field of a decoded Go payload: `None` is nil. */
  datatype Option<+T> = None | Some(value: T)
}

module Replies {

  /** One failing field as the validator reports it: the Go field name and the failing tag. */
  datatype FieldError = FieldError(field: string, tag: string)

  /** The `error` member of a JSON error reply. */
  datatype Message =
    | Text(text: string)                       // a fixed message written by the handler
    | Violations(errors: seq<FieldError>)      // the validator's aggregated report

  /** Why a handler did not complete. `Panic` is a dereference of nil in the handler:
      no reply is written and nothing is stored. */
  datatype Failure =
    | Reject(status: int, message: Message)
    | Panic

  const BadRequest: int := 400
  const Unauthorized: int := 401
  const Conflict: int := 409
  const InternalServerError: int := 500

  /** A handler's outcome: a value on success (for writes, the new store), or a failure,
      in which case the store is left as it was. */
  datatype Result<+T> = Ok(value: T) | Err(error: Failure)
}
