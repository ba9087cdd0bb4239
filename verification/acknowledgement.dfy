/** `CandyCheck::PlayStore::Acknowledgement`: a one-shot call object that
    acknowledges a product purchase and answers a `Receipt` or an
    `AcknowledgementFailure`. */
module Acknowledgements {
  import opened Outcomes
  import opened PlayClient
  import Receipts
  import AcknowledgementFailures

  /** The bound call: the shared client and the three identifiers. The
      readers `package`, `product_id` and `token` are the destructors and
      return what was bound. */
  datatype Acknowledgement = Acknowledgement(client: Client, package: string, productId: string, token: string)

  /** The one invocation `call!` makes. */
  function Invoked(a: Acknowledgement): Invocation {
    Invocation(Acknowledge, a.package, a.productId, a.token)
  }

  /** `call!`: calls `client.acknowledge(package, product_id, token)` once;
      wraps the response in a `Receipt`; turns a Google API error into an
      `AcknowledgementFailure` holding that error; lets any other error
      escape. */
  function Call(a: Acknowledgement): (e: Execution<Receipts.Receipt, AcknowledgementFailures.AcknowledgementFailure>)
    ensures e.invocations == [Invocation(Acknowledge, a.package, a.productId, a.token)]
    ensures var response := a.client.acknowledge(a.package, a.productId, a.token);
            && (response.Ok? <==> e.result.Returned? && e.result.value.Success?)
            && (response.Ok? ==> e.result.value.record == Receipts.Receipt(response.payload))
            && (response.ApiFailure? <==> e.result.Returned? && e.result.value.Failure?)
            && (response.ApiFailure? ==> e.result.value.failure == AcknowledgementFailures.AcknowledgementFailure(response.apiError))
            && (response.OtherFailure? <==> e.result.Raised?)
            && (response.OtherFailure? ==> e.result.exception == RaisedOther(response.otherError))
  {
    var response := a.client.acknowledge(a.package, a.productId, a.token);
    Execution([Invoked(a)], Rescue(response, p => Receipts.Receipt(p), err => AcknowledgementFailures.AcknowledgementFailure(err)))
  }

  /** `call!` depends on the client only through `acknowledge` at the bound
      arguments: any two clients that agree there give the same execution. */
  lemma CallReadsOnlyAcknowledge(a: Acknowledgement, other: Client)
    requires other.acknowledge(a.package, a.productId, a.token) == a.client.acknowledge(a.package, a.productId, a.token)
    ensures Call(a.(client := other)) == Call(a)
  {
  }

  /** A Google API error never escapes `call!`; the failure it returns keeps
      the error's status code. */
  lemma ApiErrorIsReturned(a: Acknowledgement)
    ensures Call(a).result.Raised? ==> Call(a).result.exception.RaisedOther?
    ensures a.client.acknowledge(a.package, a.productId, a.token).ApiFailure? ==>
              && Call(a).result.Returned?
              && Call(a).result.value.Failure?
              && AcknowledgementFailures.Code(Call(a).result.value.failure)
                 == a.client.acknowledge(a.package, a.productId, a.token).apiError.statusCode
  {
  }

  /** With a client that has no `acknowledge` method (such as the real
      `Client`), every `call!` raises and never returns a value. */
  lemma MissingAcknowledgeRaises(a: Acknowledgement)
    requires LacksAcknowledge(a.client)
    ensures Call(a).result.Raised?
    ensures Call(a).result.exception == RaisedOther(a.client.acknowledge(a.package, a.productId, a.token).otherError)
  {
  }
}
