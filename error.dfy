/**
 * The error kinds of the `playground` crate. The `Repo` and `Unexpected`
 * variants carry an error report in the source; here they carry its text.
 */
module Errors {
  datatype Error =
    | AlreadyExists(message: string)
    | InvalidArgument(message: string)
    | FailedPrecondition(message: string)
    | NotFound(message: string)
    | Repo(message: string)
    | Unexpected(message: string)
}
