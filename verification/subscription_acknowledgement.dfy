/** `CandyCheck::PlayStore::SubscriptionAcknowledgement`: the subclass of
    `Acknowledgement` that acknowledges a subscription purchase. It binds
    the same four values and overrides the remote call. */
module SubscriptionAcknowledgements {
  import opened Outcomes
  import opened PlayClient
  import Subscriptions
  import AcknowledgementFailures
  import Acknowledgements

  /** The one invocation `call!` makes. */
  function Invoked(a: Acknowledgements.Acknowledgement): Invocation {
    Invocation(AcknowledgeSubscriptionPurchase, a.package, a.productId, a.token)
  }

  /** `call!`: calls `client.acknowledge_subscription_purchase(package,
      product_id, token)` once; wraps whatever it answers in a
      `Subscription`; turns a Google API error into an
      `AcknowledgementFailure`; lets any other error escape. */
  function Call(a: Acknowledgements.Acknowledgement): (e: Execution<Subscriptions.Subscription, AcknowledgementFailures.AcknowledgementFailure>)
    ensures e.invocations == [Invocation(AcknowledgeSubscriptionPurchase, a.package, a.productId, a.token)]
    ensures var response := a.client.acknowledgeSubscriptionPurchase(a.package, a.productId, a.token);
            && (response.Ok? <==> e.result.Returned? && e.result.value.Success?)
            && (response.Ok? ==> e.result.value.record == Subscriptions.Subscription(response.payload))
            && (response.ApiFailure? <==> e.result.Returned? && e.result.value.Failure?)
            && (response.ApiFailure? ==> e.result.value.failure == AcknowledgementFailures.AcknowledgementFailure(response.apiError))
            && (response.OtherFailure? <==> e.result.Raised?)
            && (response.OtherFailure? ==> e.result.exception == RaisedOther(response.otherError))
  {
    var response := a.client.acknowledgeSubscriptionPurchase(a.package, a.productId, a.token);
    Execution([Invoked(a)], Rescue(response, p => Subscriptions.Subscription(p), err => AcknowledgementFailures.AcknowledgementFailure(err)))
  }

  /** The override replaces the product-level call: the result depends on
      the client only through `acknowledge_subscription_purchase`, so
      `acknowledge` is never consulted. */
  lemma CallReadsOnlySubscriptionAcknowledge(a: Acknowledgements.Acknowledgement, other: Client)
    requires other.acknowledgeSubscriptionPurchase(a.package, a.productId, a.token)
             == a.client.acknowledgeSubscriptionPurchase(a.package, a.productId, a.token)
    ensures Call(a.(client := other)) == Call(a)
    ensures forall i | i in Call(a).invocations :: i.Invocation? && i.callee != Acknowledge
  {
  }

  /** An empty response is wrapped as it is. */
  lemma EmptyResponseWrapped(a: Acknowledgements.Acknowledgement)
    requires a.client.acknowledgeSubscriptionPurchase(a.package, a.productId, a.token) == Ok(Subscriptions.EmptyPurchase)
    ensures Call(a).result == Returned(Success(Subscriptions.Subscription(Subscriptions.EmptyPurchase)))
  {
  }

  /** The test suite's 401: the failure returned carries code 401. */
  lemma InsufficientPermissionsExample(a: Acknowledgements.Acknowledgement)
    requires a.client.acknowledgeSubscriptionPurchase(a.package, a.productId, a.token)
             == ApiFailure(ApiError(Some(401), Some("The current user has insufficient permissions")))
    ensures Call(a).result.Returned? && Call(a).result.value.Failure?
    ensures AcknowledgementFailures.Code(Call(a).result.value.failure) == Some(401)
    ensures AcknowledgementFailures.Message(Call(a).result.value.failure) == "The current user has insufficient permissions"
  {
  }
}
