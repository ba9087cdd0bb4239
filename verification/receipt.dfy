/** `CandyCheck::PlayStore::Receipt`: a read-only view of a one-time
    product purchase as returned by the Google Play Developer API. */
module Receipts {
  import opened Outcomes
  import EpochTime

  /** `PURCHASE_STATE_PURCHASED` */
  const PurchaseStatePurchased := 0
  /** `CONSUMPTION_STATE_CONSUMED` */
  const ConsumptionStateConsumed := 1

  /** The API's `ProductPurchase` object; every attribute may be nil. */
  datatype ProductPurchase = ProductPurchase(
    purchaseState: Option<int>,
    consumptionState: Option<int>,
    developerPayload: Option<string>,
    kind: Option<string>,
    purchaseTimeMillis: Option<int>)

  /** A receipt wraps the raw object and never changes it. */
  datatype Receipt = Receipt(raw: ProductPurchase)

  /** The purchase state read as the marketplace defines it, keeping "nil"
      apart from every code. */
  datatype PurchaseState = Purchased | Canceled | PurchaseStateUnset | PurchaseStateOther(code: int)

  /** The consumption state read as the marketplace defines it. */
  datatype ConsumptionState = NotConsumed | Consumed | ConsumptionStateUnset | ConsumptionStateOther(code: int)

  function PurchaseStateCode(s: PurchaseState): Option<int> {
    match s
    case Purchased => Some(0)
    case Canceled => Some(1)
    case PurchaseStateUnset => None
    case PurchaseStateOther(c) => Some(c)
  }

  /** Decoding a raw purchase state loses nothing: it encodes back to the
      same attribute, so nil and 0 stay distinguishable. */
  function PurchaseStateOf(code: Option<int>): (s: PurchaseState)
    ensures PurchaseStateCode(s) == code
    ensures s.PurchaseStateOther? ==> s.code != 0 && s.code != 1
  {
    match code
    case None => PurchaseStateUnset
    case Some(c) => if c == 0 then Purchased else if c == 1 then Canceled else PurchaseStateOther(c)
  }

  function ConsumptionStateCode(s: ConsumptionState): Option<int> {
    match s
    case NotConsumed => Some(0)
    case Consumed => Some(1)
    case ConsumptionStateUnset => None
    case ConsumptionStateOther(c) => Some(c)
  }

  /** Decoding a raw consumption state loses nothing. */
  function ConsumptionStateOf(code: Option<int>): (s: ConsumptionState)
    ensures ConsumptionStateCode(s) == code
    ensures s.ConsumptionStateOther? ==> s.code != 0 && s.code != 1
  {
    match code
    case None => ConsumptionStateUnset
    case Some(c) => if c == 0 then NotConsumed else if c == 1 then Consumed else ConsumptionStateOther(c)
  }

  /** `valid?`: exact comparison of the attribute with 0. */
  predicate Valid(r: Receipt)
    ensures Valid(r) <==> PurchaseStateOf(r.raw.purchaseState) == Purchased
  {
    r.raw.purchaseState == Some(PurchaseStatePurchased)
  }

  /** `consumed?`: exact comparison of the attribute with 1. */
  predicate IsConsumed(r: Receipt)
    ensures IsConsumed(r) <==> ConsumptionStateOf(r.raw.consumptionState) == Consumed
  {
    r.raw.consumptionState == Some(ConsumptionStateConsumed)
  }

  // Attribute readers; each hands back the raw attribute.

  function PurchaseStateAttr(r: Receipt): Option<int> { r.raw.purchaseState }
  function ConsumptionStateAttr(r: Receipt): Option<int> { r.raw.consumptionState }
  function DeveloperPayload(r: Receipt): Option<string> { r.raw.developerPayload }
  function Kind(r: Receipt): Option<string> { r.raw.kind }
  function PurchaseTimeMillis(r: Receipt): Option<int> { r.raw.purchaseTimeMillis }

  /** `purchased_at` as epoch seconds: the purchase time in milliseconds
      rounded down to whole seconds; `None` where the attribute is nil. */
  function PurchasedAt(r: Receipt): (secs: Option<int>)
    ensures secs.Some? <==> r.raw.purchaseTimeMillis.Some?
    ensures secs.Some? ==> EpochTime.WholeSecondsOf(r.raw.purchaseTimeMillis.value, secs.value)
  {
    EpochTime.EpochSeconds(PurchaseTimeMillis(r))
  }

  /** The readers give back exactly the wrapped object: rebuilding a
      `ProductPurchase` from them yields the original. */
  lemma ReadersRecoverRaw(r: Receipt)
    ensures ProductPurchase(PurchaseStateAttr(r), ConsumptionStateAttr(r), DeveloperPayload(r),
                            Kind(r), PurchaseTimeMillis(r)) == r.raw
  {
  }

  /** `valid?` reads only the purchase state and `consumed?` only the
      consumption state. */
  lemma ValidityAndConsumptionIndependent(r: Receipt, p: Option<int>, c: Option<int>)
    ensures Valid(Receipt(r.raw.(consumptionState := c))) == Valid(r)
    ensures IsConsumed(Receipt(r.raw.(purchaseState := p))) == IsConsumed(r)
  {
  }

  /** A receipt can be valid and consumed at once (a consumed purchase is
      still a purchase), and neither predicate holds of a nil attribute. */
  lemma ValidAndConsumedCompatible(r: Receipt)
    ensures r.raw.purchaseState == Some(0) && r.raw.consumptionState == Some(1) ==> Valid(r) && IsConsumed(r)
    ensures r.raw.purchaseState.None? ==> !Valid(r)
    ensures r.raw.consumptionState.None? ==> !IsConsumed(r)
  {
  }

  /** The purchase in the test suite: 1421676237413 ms is second 1421676237,
      which is UTC day 16454 (2015-01-19) at 14:03:57. */
  lemma PurchasedAtExample()
    ensures var r := Receipt(ProductPurchase(Some(0), Some(0), Some("payload that gets stored and returned"),
                                             Some("androidpublisher#productPurchase"), Some(1421676237413)));
            && Valid(r) && !IsConsumed(r)
            && PurchasedAt(r) == Some(1421676237)
            && EpochTime.UtcDay(1421676237) == 16454
            && 1421676237 - 16454 * EpochTime.SecondsPerDay == 14 * 3600 + 3 * 60 + 57
  {
  }
}
