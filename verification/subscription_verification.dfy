/** `CandyCheck::PlayStore::SubscriptionVerification`: a one-shot call
    object that reads a subscription's state. Its parent `Verification` is
    not part of this model beyond the four values it binds, and
    `VerificationFailure` only as the wrapper of the error it was built
    from. */
module SubscriptionVerifications {
  import opened Outcomes
  import opened PlayClient
  import Subscriptions
  import EpochTime

  datatype SubscriptionVerification = SubscriptionVerification(client: Client, package: string, productId: string, token: string)

  /** `VerificationFailure`, seen only through the error it wraps. */
  datatype VerificationFailure = VerificationFailure(error: ApiError)

  /** `VerificationFailure#code`: the wrapped error's status code. */
  function Code(f: VerificationFailure): Option<int> {
    f.error.statusCode
  }

  /** The one invocation `call!` makes. */
  function Invoked(v: SubscriptionVerification): Invocation {
    Invocation(VerifySubscription, v.package, v.productId, v.token)
  }

  /** `call!`: calls `client.verify_subscription(package, product_id, token)`
      once; wraps the response in a `Subscription`; turns a Google API error
      into a `VerificationFailure`; lets any other error escape. */
  function Call(v: SubscriptionVerification): (e: Execution<Subscriptions.Subscription, VerificationFailure>)
    ensures e.invocations == [Invocation(VerifySubscription, v.package, v.productId, v.token)]
    ensures var response := v.client.verifySubscription(v.package, v.productId, v.token);
            && (response.Ok? <==> e.result.Returned? && e.result.value.Success?)
            && (response.Ok? ==> e.result.value.record == Subscriptions.Subscription(response.payload))
            && (response.ApiFailure? <==> e.result.Returned? && e.result.value.Failure?)
            && (response.ApiFailure? ==> e.result.value.failure == VerificationFailure(response.apiError))
            && (response.OtherFailure? <==> e.result.Raised?)
            && (response.OtherFailure? ==> e.result.exception == RaisedOther(response.otherError))
  {
    var response := v.client.verifySubscription(v.package, v.productId, v.token);
    Execution([Invoked(v)], Rescue(response, p => Subscriptions.Subscription(p), err => VerificationFailure(err)))
  }

  /** Only `verify_subscription` is consulted, never the product `verify`. */
  lemma CallReadsOnlyVerifySubscription(v: SubscriptionVerification, other: Client)
    requires other.verifySubscription(v.package, v.productId, v.token) == v.client.verifySubscription(v.package, v.productId, v.token)
    ensures Call(v.(client := other)) == Call(v)
    ensures forall i | i in Call(v).invocations :: i.Invocation? && i.callee != Verify
  {
  }

  /** A successful verification keeps the response's acknowledgement state,
      and a Google API error keeps its status code in the failure. */
  lemma CallPreservesFields(v: SubscriptionVerification)
    ensures var response := v.client.verifySubscription(v.package, v.productId, v.token);
            && (response.Ok? ==> Subscriptions.AcknowledgementStateAttr(Call(v).result.value.record) == response.payload.acknowledgementState)
            && (response.ApiFailure? ==> Code(Call(v).result.value.failure) == response.apiError.statusCode)
  {
  }

  /** The test suite's valid response: acknowledged, with an expiry in 2016,
      so it is expired on any later UTC day. */
  lemma AcknowledgedExpiredExample(v: SubscriptionVerification, today: int)
    requires v.client.verifySubscription(v.package, v.productId, v.token).Ok?
    requires v.client.verifySubscription(v.package, v.productId, v.token).payload.acknowledgementState == Some(1)
    requires v.client.verifySubscription(v.package, v.productId, v.token).payload.expiryTimeMillis == Some(1462132088610)
    requires today > 16922
    ensures Call(v).result.Returned? && Call(v).result.value.Success?
    ensures Subscriptions.AcknowledgementStateOf(Subscriptions.AcknowledgementStateAttr(Call(v).result.value.record)) == Subscriptions.Acknowledged
    ensures Subscriptions.Expired(Call(v).result.value.record, today, EpochTime.UtcDay) == Some(true)
  {
  }
}
