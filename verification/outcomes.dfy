/** Values shared by the whole Play Store core: Ruby's nil as `Option`, the
    errors a call can raise, and a value-or-raised wrapper for the places
    where the source lets an exception escape. */
module Outcomes {

  /** A Ruby attribute that may be nil. */
  datatype Option<+T> = None | Some(value: T)

  /** A `Google::Apis::Error` (or one of its subclasses): an optional HTTP
      status code and an optional message. */
  datatype ApiError = ApiError(statusCode: Option<int>, message: Option<string>)

  /** Any other exception (`NoMethodError`, `Errno::ENOENT`, ...), identified
      by its class name and message. */
  datatype OtherError = OtherError(className: string, message: string)

  /** The two call sites of `Acknowledger::BootRequiredError`. */
  datatype BootViolation = AlreadyBooted | NotBooted

  /** Everything that can escape from a call into the core. */
  datatype Exception =
    | BootRequiredError(violation: BootViolation, message: string)
    | RaisedApiError(apiError: ApiError)
    | RaisedOther(otherError: OtherError)

  /** The result of a Ruby call: either it returned a value or it raised. */
  datatype Raising<+T> = Returned(value: T) | Raised(exception: Exception)
}
