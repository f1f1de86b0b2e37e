/**
 * The shape of the errors the service-account operations return: an operation
 * name, an optional machine-readable code, a message and the error being wrapped.
 */
module Errors {
  import opened Wrappers

  /** Error codes; only the ones the modelled operations attach are named. */
  datatype Code = Unspecified | OpenFGARequestFailed | NotImplemented | Other(name: string)

  /** The name of the operation that surfaced an error, e.g. "jimm.AddServiceAccount". */
  type Op = string

  datatype Error = Error(op: Op, code: Code, message: string, cause: Option<Error>)

  /** `errors.E(op, err)`: prefix an underlying error with the operation name. */
  function WrapError(op: Op, err: Error): Error
  {
    Error(op, Unspecified, "", Some(err))
  }

  /** `errors.E(op, "text")`: a new error carrying only a message. */
  function NewError(op: Op, message: string): Error
  {
    Error(op, Unspecified, message, None)
  }

  /** `errors.E(op, code, err)`: wrap an underlying error and attach a code. */
  function WrapWithCode(op: Op, code: Code, err: Error): Error
  {
    Error(op, code, "", Some(err))
  }
}
