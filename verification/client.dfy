/** The collaborator every operation talks to. The real `Client` (OAuth,
    credential files, HTTP through the Google SDK) is not part of this
    model; here a client is any value that answers the four API methods a
    call object may invoke, each with a payload, a Google API error or some
    other exception. Nothing assumes the real client: it defines no
    `acknowledge`, which a client models by answering `NoMethodError`. */
module PlayClient {
  import opened Outcomes
  import Receipts
  import Subscriptions

  /** What one client method answers. */
  datatype Response<+P> =
    | Ok(payload: P)
    | ApiFailure(apiError: ApiError)
    | OtherFailure(otherError: OtherError)

  datatype Method = Verify | VerifySubscription | Acknowledge | AcknowledgeSubscriptionPurchase

  /** One call of a client method with its arguments in order, or the
      client's own `boot!`, which takes none. */
  datatype Invocation =
    | Invocation(callee: Method, package: string, productId: string, token: string)
    | ClientBoot

  datatype Client = Client(
    verify: (string, string, string) -> Response<Receipts.ProductPurchase>,
    verifySubscription: (string, string, string) -> Response<Subscriptions.SubscriptionPurchase>,
    acknowledge: (string, string, string) -> Response<Receipts.ProductPurchase>,
    acknowledgeSubscriptionPurchase: (string, string, string) -> Response<Subscriptions.SubscriptionPurchase>)

  /** A client without an `acknowledge` method: Ruby raises `NoMethodError`
      for every call of it. */
  ghost predicate LacksAcknowledge(c: Client) {
    forall package, productId, token :: c.acknowledge(package, productId, token).OtherFailure?
  }

  /** A client that does define `acknowledge`: it answers a payload or a
      Google API error, never another exception. */
  ghost predicate DefinesAcknowledge(c: Client) {
    forall package, productId, token :: !c.acknowledge(package, productId, token).OtherFailure?
  }

  /** The value a one-shot call returns: the success record or the failure
      object. */
  datatype Outcome<+S, +F> = Success(record: S) | Failure(failure: F)

  /** One run of a call object: the client methods it invoked, in order, and
      what `call!` returned or raised. */
  datatype Execution<+S, +F> = Execution(invocations: seq<Invocation>, result: Raising<Outcome<S, F>>)

  /** The rescue clause shared by every call object: success is wrapped, a
      Google API error becomes a failure value, anything else propagates. */
  function Rescue<P, S, F>(response: Response<P>, wrap: P -> S, fail: ApiError -> F): (r: Raising<Outcome<S, F>>)
    ensures r.Returned? && r.value.Success? <==> response.Ok?
    ensures r.Returned? && r.value.Failure? <==> response.ApiFailure?
    ensures response.Ok? ==> r.value.record == wrap(response.payload)
    ensures response.ApiFailure? ==> r.value.failure == fail(response.apiError)
    ensures response.OtherFailure? ==> r == Raised(RaisedOther(response.otherError))
  {
    match response
    case Ok(p) => Returned(Success(wrap(p)))
    case ApiFailure(e) => Returned(Failure(fail(e)))
    case OtherFailure(e) => Raised(RaisedOther(e))
  }
}
