/** `CandyCheck::PlayStore::Subscription`: a read-only view of a
    subscription purchase as returned by the Google Play Developer API. */
module Subscriptions {
  import opened Outcomes
  import EpochTime

  /** `PAYMENT_PENDING`, `PAYMENT_RECEIVED`, `PAYMENT_TRIAL` (paymentState) */
  const PaymentPendingCode := 0
  const PaymentReceivedCode := 1
  const PaymentTrialCode := 2
  /** `PAYMENT_CANCELED`, `PAYMENT_FAILED` (cancelReason) */
  const PaymentCanceledCode := 0
  const PaymentFailedCode := 1
  /** `NOT_ACKNOWLEDGED`, `ACKNOWLEDGED` (acknowledgementState) */
  const NotAcknowledgedCode := 0
  const AcknowledgedCode := 1

  /** The API's `SubscriptionPurchase` object; every attribute may be nil. */
  datatype SubscriptionPurchase = SubscriptionPurchase(
    kind: Option<string>,
    startTimeMillis: Option<int>,
    expiryTimeMillis: Option<int>,
    autoRenewing: Option<bool>,
    priceCurrencyCode: Option<string>,
    priceAmountMicros: Option<int>,
    developerPayload: Option<string>,
    paymentState: Option<int>,
    cancelReason: Option<int>,
    acknowledgementState: Option<int>)

  /** The object with every attribute nil (the API's empty response). */
  const EmptyPurchase := SubscriptionPurchase(None, None, None, None, None, None, None, None, None, None)

  /** A subscription wraps the raw object and never changes it. */
  datatype Subscription = Subscription(raw: SubscriptionPurchase)

  /** The payment state read as the marketplace defines it; nil stays apart
      from "pending". */
  datatype PaymentState = Pending | Received | FreeTrial | PaymentStateUnset | PaymentStateOther(code: int)

  /** The cancel reason read as the marketplace defines it. */
  datatype CancelReason = ByUser | BySystemPaymentFailure | CancelReasonUnset | CancelReasonOther(code: int)

  /** The acknowledgement state read as the marketplace defines it. */
  datatype AcknowledgementState = NotAcknowledged | Acknowledged | AcknowledgementStateUnset | AcknowledgementStateOther(code: int)

  function PaymentStateCode(s: PaymentState): Option<int> {
    match s
    case Pending => Some(0)
    case Received => Some(1)
    case FreeTrial => Some(2)
    case PaymentStateUnset => None
    case PaymentStateOther(c) => Some(c)
  }

  /** Decoding a raw payment state loses nothing. */
  function PaymentStateOf(code: Option<int>): (s: PaymentState)
    ensures PaymentStateCode(s) == code
    ensures s.PaymentStateOther? ==> s.code !in {0, 1, 2}
  {
    match code
    case None => PaymentStateUnset
    case Some(c) =>
      if c == PaymentPendingCode then Pending
      else if c == PaymentReceivedCode then Received
      else if c == PaymentTrialCode then FreeTrial
      else PaymentStateOther(c)
  }

  function CancelReasonCode(s: CancelReason): Option<int> {
    match s
    case ByUser => Some(0)
    case BySystemPaymentFailure => Some(1)
    case CancelReasonUnset => None
    case CancelReasonOther(c) => Some(c)
  }

  /** Decoding a raw cancel reason loses nothing. */
  function CancelReasonOf(code: Option<int>): (s: CancelReason)
    ensures CancelReasonCode(s) == code
    ensures s.CancelReasonOther? ==> s.code != 0 && s.code != 1
  {
    match code
    case None => CancelReasonUnset
    case Some(c) =>
      if c == PaymentCanceledCode then ByUser
      else if c == PaymentFailedCode then BySystemPaymentFailure
      else CancelReasonOther(c)
  }

  function AcknowledgementStateCode(s: AcknowledgementState): Option<int> {
    match s
    case NotAcknowledged => Some(0)
    case Acknowledged => Some(1)
    case AcknowledgementStateUnset => None
    case AcknowledgementStateOther(c) => Some(c)
  }

  /** Decoding a raw acknowledgement state loses nothing. */
  function AcknowledgementStateOf(code: Option<int>): (s: AcknowledgementState)
    ensures AcknowledgementStateCode(s) == code
    ensures s.AcknowledgementStateOther? ==> s.code != 0 && s.code != 1
  {
    match code
    case None => AcknowledgementStateUnset
    case Some(c) =>
      if c == NotAcknowledgedCode then NotAcknowledged
      else if c == AcknowledgedCode then Acknowledged
      else AcknowledgementStateOther(c)
  }

  /** `trial?` */
  predicate Trial(s: Subscription)
    ensures Trial(s) <==> PaymentStateOf(s.raw.paymentState) == FreeTrial
  {
    s.raw.paymentState == Some(PaymentTrialCode)
  }

  /** `payment_received?` */
  predicate PaymentReceived(s: Subscription)
    ensures PaymentReceived(s) <==> PaymentStateOf(s.raw.paymentState) == Received
  {
    s.raw.paymentState == Some(PaymentReceivedCode)
  }

  /** `payment_pending?`: nil is not pending. */
  predicate PaymentPending(s: Subscription)
    ensures PaymentPending(s) <==> PaymentStateOf(s.raw.paymentState) == Pending
  {
    s.raw.paymentState == Some(PaymentPendingCode)
  }

  /** `payment_failed?` */
  predicate PaymentFailed(s: Subscription)
    ensures PaymentFailed(s) <==> CancelReasonOf(s.raw.cancelReason) == BySystemPaymentFailure
  {
    s.raw.cancelReason == Some(PaymentFailedCode)
  }

  /** `canceled_by_user?`: nil is not a user cancellation. */
  predicate CanceledByUser(s: Subscription)
    ensures CanceledByUser(s) <==> CancelReasonOf(s.raw.cancelReason) == ByUser
  {
    s.raw.cancelReason == Some(PaymentCanceledCode)
  }

  // Attribute readers; each hands back the raw attribute.

  function Kind(s: Subscription): Option<string> { s.raw.kind }
  function StartTimeMillis(s: Subscription): Option<int> { s.raw.startTimeMillis }
  function ExpiryTimeMillis(s: Subscription): Option<int> { s.raw.expiryTimeMillis }
  function AutoRenewing(s: Subscription): Option<bool> { s.raw.autoRenewing }
  function PriceCurrencyCode(s: Subscription): Option<string> { s.raw.priceCurrencyCode }
  function PriceAmountMicros(s: Subscription): Option<int> { s.raw.priceAmountMicros }
  function DeveloperPayload(s: Subscription): Option<string> { s.raw.developerPayload }
  function PaymentStateAttr(s: Subscription): Option<int> { s.raw.paymentState }
  function CancelReasonAttr(s: Subscription): Option<int> { s.raw.cancelReason }
  function AcknowledgementStateAttr(s: Subscription): Option<int> { s.raw.acknowledgementState }

  /** `starts_at` as epoch seconds; `None` where the attribute is nil. */
  function StartsAt(s: Subscription): (secs: Option<int>)
    ensures secs.Some? <==> s.raw.startTimeMillis.Some?
    ensures secs.Some? ==> EpochTime.WholeSecondsOf(s.raw.startTimeMillis.value, secs.value)
  {
    EpochTime.EpochSeconds(StartTimeMillis(s))
  }

  /** `expires_at` as epoch seconds; `None` where the attribute is nil. */
  function ExpiresAt(s: Subscription): (secs: Option<int>)
    ensures secs.Some? <==> s.raw.expiryTimeMillis.Some?
    ensures secs.Some? ==> EpochTime.WholeSecondsOf(s.raw.expiryTimeMillis.value, secs.value)
  {
    EpochTime.EpochSeconds(ExpiryTimeMillis(s))
  }

  /** `overdue_days`: today's day number minus the expiry's day number, where
      `dayOf` maps epoch seconds to a day number in the local calendar.
      Negative while the expiry day is still ahead. */
  function OverdueDays(s: Subscription, today: int, dayOf: int -> int): (days: Option<int>)
    ensures days.Some? <==> s.raw.expiryTimeMillis.Some?
    ensures days.Some? ==> dayOf(ExpiresAt(s).value) + days.value == today
    ensures days.Some? ==> (days.value < 0 <==> today < dayOf(ExpiresAt(s).value))
    ensures days.Some? ==> (days.value == 0 <==> today == dayOf(ExpiresAt(s).value))
  {
    match ExpiresAt(s)
    case None => None
    case Some(secs) => Some(today - dayOf(secs))
  }

  /** `expired?`: the expiry day lies strictly before today. */
  function Expired(s: Subscription, today: int, dayOf: int -> int): (expired: Option<bool>)
    ensures expired.Some? <==> s.raw.expiryTimeMillis.Some?
    ensures expired.Some? ==> (expired.value <==> dayOf(ExpiresAt(s).value) < today)
  {
    match OverdueDays(s, today, dayOf)
    case None => None
    case Some(d) => Some(d > 0)
  }

  /** The readers give back exactly the wrapped object. */
  lemma ReadersRecoverRaw(s: Subscription)
    ensures SubscriptionPurchase(Kind(s), StartTimeMillis(s), ExpiryTimeMillis(s), AutoRenewing(s),
                                 PriceCurrencyCode(s), PriceAmountMicros(s), DeveloperPayload(s),
                                 PaymentStateAttr(s), CancelReasonAttr(s), AcknowledgementStateAttr(s)) == s.raw
  {
  }

  /** `expired?` is `overdue_days > 0`: overdue by zero days is not expired. */
  lemma ExpiredIffOverdue(s: Subscription, today: int, dayOf: int -> int)
    requires s.raw.expiryTimeMillis.Some?
    ensures Expired(s, today, dayOf) == Some(OverdueDays(s, today, dayOf).value > 0)
    ensures OverdueDays(s, today, dayOf) == Some(0) ==> Expired(s, today, dayOf) == Some(false)
  {
  }

  /** At most one payment predicate holds; exactly one holds when the state is
      0, 1 or 2; none holds when it is nil. */
  lemma PaymentPredicatesExclusive(s: Subscription)
    ensures !(Trial(s) && PaymentReceived(s))
    ensures !(Trial(s) && PaymentPending(s))
    ensures !(PaymentReceived(s) && PaymentPending(s))
    ensures (Trial(s) || PaymentReceived(s) || PaymentPending(s)) <==> s.raw.paymentState in {Some(0), Some(1), Some(2)}
    ensures s.raw.paymentState.None? ==> !Trial(s) && !PaymentReceived(s) && !PaymentPending(s)
  {
  }

  /** The two cancel predicates never hold together, neither holds for a nil
      reason, and neither reads the payment state. */
  lemma CancelPredicatesExclusive(s: Subscription, p: Option<int>)
    ensures !(PaymentFailed(s) && CanceledByUser(s))
    ensures s.raw.cancelReason.None? ==> !PaymentFailed(s) && !CanceledByUser(s)
    ensures PaymentFailed(Subscription(s.raw.(paymentState := p))) == PaymentFailed(s)
    ensures CanceledByUser(Subscription(s.raw.(paymentState := p))) == CanceledByUser(s)
  {
  }

  /** The payment predicates do not read the cancel reason. */
  lemma PaymentPredicatesIgnoreCancelReason(s: Subscription, c: Option<int>)
    ensures Trial(Subscription(s.raw.(cancelReason := c))) == Trial(s)
    ensures PaymentReceived(Subscription(s.raw.(cancelReason := c))) == PaymentReceived(s)
    ensures PaymentPending(Subscription(s.raw.(cancelReason := c))) == PaymentPending(s)
  {
  }

  /** An expiry whole days ahead of `now` (in UTC) is overdue by minus that
      many days; two days ahead gives -2 and is not expired. */
  lemma OverdueDaysAhead(s: Subscription, now: int, ahead: int)
    requires s.raw.expiryTimeMillis == Some((now + ahead * EpochTime.SecondsPerDay) * EpochTime.MillisPerSecond)
    ensures OverdueDays(s, EpochTime.UtcDay(now), EpochTime.UtcDay) == Some(-ahead)
    ensures ahead >= 0 ==> Expired(s, EpochTime.UtcDay(now), EpochTime.UtcDay) == Some(false)
  {
  }

  /** The subscription in the test suite whose payment failed past the hold
      period: nil payment state and cancel reason 1. It is not pending, its
      payment failed, and it was not canceled by the user. */
  lemma HoldPeriodPassedExample(s: Subscription)
    requires s.raw.paymentState.None? && s.raw.cancelReason == Some(1)
    ensures !PaymentPending(s) && !Trial(s) && !PaymentReceived(s)
    ensures PaymentFailed(s) && !CanceledByUser(s)
  {
  }
}
