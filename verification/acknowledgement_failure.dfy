/** `CandyCheck::PlayStore::AcknowledgementFailure`: the value a failed
    remote call is turned into. */
module AcknowledgementFailures {
  import opened Outcomes

  const UnknownError := "Unknown error"

  /** Wraps the Google API error it was built from; `error` is its reader
      and there is no way to change it. */
  datatype AcknowledgementFailure = AcknowledgementFailure(error: ApiError)

  /** `code`: the error's status code, nil included. Together with
      `message` it rebuilds the wrapped error whenever that error carries a
      message. */
  function Code(f: AcknowledgementFailure): (c: Option<int>)
    ensures f.error.message.Some? ==> ApiError(c, Some(Message(f))) == f.error
    ensures f.error.message.None? ==> ApiError(c, None) == f.error
  {
    f.error.statusCode
  }

  /** `message`: the error's message, or `"Unknown error"` only when the
      message is nil (`||` falls back on nil, not on an empty string). */
  function Message(f: AcknowledgementFailure): (m: string)
    ensures f.error.message.Some? ==> m == f.error.message.value
    ensures m == UnknownError <==> f.error.message in {None, Some(UnknownError)}
  {
    match f.error.message
    case Some(text) => text
    case None => UnknownError
  }

  /** The failure keeps the error's fields: its code and message determine
      the error back, except that a nil message and the literal fallback
      text cannot be told apart through `message`. */
  lemma FailureDeterminesError(f: AcknowledgementFailure, g: AcknowledgementFailure)
    requires Code(f) == Code(g) && Message(f) == Message(g)
    requires f.error.message.Some? && g.error.message.Some?
    ensures f == g
  {
  }

  /** An empty message is passed through, not replaced. */
  lemma EmptyMessageKept(status: Option<int>)
    ensures Message(AcknowledgementFailure(ApiError(status, Some("")))) == ""
  {
  }

  /** The 401 of the test suite survives: code and message come back as
      given. */
  lemma InsufficientPermissionsExample()
    ensures var f := AcknowledgementFailure(ApiError(Some(401), Some("The current user has insufficient permissions")));
            Code(f) == Some(401) && Message(f) == "The current user has insufficient permissions"
  {
  }
}
