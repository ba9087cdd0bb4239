# candy_check Play Store purchase state, in Dafny

This project models the Google Play part of candy_check. That part verifies
and acknowledges in-app purchases and subscriptions. It has three pieces:

- **Read-only records over a raw API response.**
  - `Receipts` models `Receipt`, a one-time product purchase.
  - `Subscriptions` models `Subscription`.
  - Every attribute of the raw object may be nil, so each one is an `Option`.
  - The state predicates (`valid?`, `consumed?`, `trial?`, `payment_received?`, `payment_pending?`, `payment_failed?`, `canceled_by_user?`) compare against `Some(code)`. As with Ruby's `==`, a nil attribute therefore never behaves like `0`.
  - Each state field also has a typed view (`PurchaseState`, `PaymentState`, `CancelReason`, ...) with a separate "unset" member. Every predicate is proved equal to a test on that view, and decoding is proved lossless.
- **One-shot call objects.**
  - These are `Acknowledgements`, `SubscriptionAcknowledgements` and `SubscriptionVerifications`.
  - Each one binds a client, a package, a product id and a token.
  - Its `Call` (`call!`) makes exactly one client call. It returns the invocation it made together with the result.
  - On success the response is wrapped in a record. A Google API error becomes a failure value (`AcknowledgementFailure` or `VerificationFailure`). Any other error propagates as a raised exception.
- **`Acknowledgers`, the boot lifecycle.**
  - The acknowledger has two states, unbooted and booted. It moves between them through pure transition functions.
  - "Booted" means a client was assigned, even when that client's own `boot!` raised.

The client is an abstract interface (`PlayClient.Client`). It has four total functions, one for each API method a call object may invoke: `verify`, `verify_subscription`, `acknowledge` and `acknowledge_subscription_purchase`. Each answers `Ok(payload)`, `ApiFailure(error)` or `OtherFailure(error)`. No modelled member invokes `verify`, the product verification; it is in the interface so that lemmas can state that it is never consulted. The client's own `boot!` is not one of the four. It is a parameter of the boot step, and the invocation trace records it as `ClientBoot`.

The interface does not assume the real `Client`. `Acknowledgement` calls `client.acknowledge`, but lib/candy_check/play_store/client.rb defines no such method. `Acknowledgements.MissingAcknowledgeRaises` and `Acknowledgers.RealClientAcknowledgeRaises` prove the consequence: with a client that answers `NoMethodError` for `acknowledge`, every product acknowledgement raises (see "## Findings").

Time is reduced to integer arithmetic:
- Ruby's `millis / 1000` rounds down, and so does Dafny's `/` for a positive divisor.
- `overdue_days` takes today's day number and a seconds-to-day function as parameters.
- `EpochTime.UtcDay` is the UTC instance of that function, used for the worked examples.

Facts about the code that the model keeps:
- `message` falls back to `"Unknown error"` only on nil (acknowledgement_failure.rb:24). An empty string is kept, because `||` only replaces nil.
- `SubscriptionAcknowledgement#call!` returns `Subscription.new(@response)` (subscription_acknowledgement.rb:11).
- The acknowledger counts as booted once `@client` is assigned (acknowledger.rb:23, 55-57), even when `@client.boot!` then raises (acknowledger.rb:24).
- Where doc comments and code disagree, the model follows the code. acknowledgement.rb:4 says the call returns a `VerificationFailure`, but line 32 returns an `AcknowledgementFailure`. Likewise acknowledger.rb:43-44 documents `acknowledge_subscription` as returning a `Receipt` or `VerificationFailure`. Lines 47-50 return whatever `SubscriptionAcknowledgement#call!` returns: a `Subscription` or an `AcknowledgementFailure`.

## Model

| member | source | states |
|---|---|---|
| `EpochTime.EpochSeconds` | lib/candy_check/play_store/receipt.rb:73 | milliseconds become the unique whole-second count that rounds them down; nil gives no value |
| `Receipts.PurchaseStateOf` | lib/candy_check/play_store/receipt.rb:34-40 | decoding the purchase state is lossless: nil, 0, 1 and any other code decode to distinct views that encode back to the same attribute |
| `Receipts.ConsumptionStateOf` | lib/candy_check/play_store/receipt.rb:42-48 | decoding the consumption state is lossless; nil is kept apart from 0 |
| `Receipts.Valid` | lib/candy_check/play_store/receipt.rb:23-25 | `valid?` holds exactly when the typed purchase state is Purchased (code 0) |
| `Receipts.IsConsumed` | lib/candy_check/play_store/receipt.rb:30-32 | `consumed?` holds exactly when the typed consumption state is Consumed (code 1) |
| `Receipts.PurchasedAt` | lib/candy_check/play_store/receipt.rb:72-74 | `purchased_at` is the purchase time rounded down to whole seconds, present exactly when the millis attribute is |
| `Receipts.ReadersRecoverRaw` | lib/candy_check/play_store/receipt.rb:38-68 | the five readers return the wrapped attributes unchanged: rebuilding from them gives the raw object back |
| `Receipts.ValidityAndConsumptionIndependent` | lib/candy_check/play_store/receipt.rb:23-32 | `valid?` ignores the consumption state and `consumed?` ignores the purchase state |
| `Receipts.ValidAndConsumedCompatible` | spec/play_store/receipt_spec.rb:56-73 | a receipt can be valid and consumed at once; a nil state makes its predicate false |
| `Receipts.PurchasedAtExample` | spec/play_store/receipt_spec.rb:8-53 | the test purchase is valid, not consumed, and purchased at second 1421676237, which is UTC day 16454 (2015-01-19) at 14:03:57 |
| `Subscriptions.PaymentStateOf` | lib/candy_check/play_store/subscription.rb:6-11 | decoding the payment state is lossless; nil is not pending |
| `Subscriptions.CancelReasonOf` | lib/candy_check/play_store/subscription.rb:13-16 | decoding the cancel reason is lossless; nil is not a user cancellation |
| `Subscriptions.AcknowledgementStateOf` | lib/candy_check/play_store/subscription.rb:18-22 | decoding the acknowledgement state (0 not acknowledged, 1 acknowledged) is lossless |
| `Subscriptions.Trial` | lib/candy_check/play_store/subscription.rb:41-43 | `trial?` holds exactly when the typed payment state is FreeTrial (code 2) |
| `Subscriptions.PaymentReceived` | lib/candy_check/play_store/subscription.rb:47-49 | `payment_received?` holds exactly when the typed payment state is Received (code 1) |
| `Subscriptions.PaymentPending` | lib/candy_check/play_store/subscription.rb:53-55 | `payment_pending?` holds exactly when the typed payment state is Pending (code 0), so not for nil |
| `Subscriptions.PaymentFailed` | lib/candy_check/play_store/subscription.rb:59-61 | `payment_failed?` holds exactly when the typed cancel reason is a payment failure (code 1) |
| `Subscriptions.CanceledByUser` | lib/candy_check/play_store/subscription.rb:65-67 | `canceled_by_user?` holds exactly when the typed cancel reason is ByUser (code 0) |
| `Subscriptions.StartsAt` | lib/candy_check/play_store/subscription.rb:140-142 | `starts_at` is the start time rounded down to whole seconds |
| `Subscriptions.ExpiresAt` | lib/candy_check/play_store/subscription.rb:146-148 | `expires_at` is the expiry time rounded down to whole seconds |
| `Subscriptions.OverdueDays` | lib/candy_check/play_store/subscription.rb:71-73 | `overdue_days` is today's day number minus the expiry's day number: negative exactly while the expiry day is after today, and zero exactly on the expiry day |
| `Subscriptions.Expired` | lib/candy_check/play_store/subscription.rb:33-35 | `expired?` holds exactly when the expiry day lies strictly before today |
| `Subscriptions.ExpiredIffOverdue` | lib/candy_check/play_store/subscription.rb:33-35 | `expired?` equals `overdue_days > 0`; zero overdue days is not expired |
| `Subscriptions.ReadersRecoverRaw` | lib/candy_check/play_store/subscription.rb:77-136 | the ten readers return the wrapped attributes unchanged |
| `Subscriptions.PaymentPredicatesExclusive` | lib/candy_check/play_store/subscription.rb:41-55 | at most one payment predicate holds; one holds exactly for states 0, 1 and 2; none holds for nil |
| `Subscriptions.CancelPredicatesExclusive` | lib/candy_check/play_store/subscription.rb:59-67 | the cancel predicates exclude each other, are false for a nil reason, and do not read the payment state |
| `Subscriptions.PaymentPredicatesIgnoreCancelReason` | lib/candy_check/play_store/subscription.rb:41-55 | the payment predicates do not read the cancel reason |
| `Subscriptions.OverdueDaysAhead` | spec/play_store/subscription_spec.rb:115-119 | an expiry n whole days ahead in UTC gives `overdue_days` = -n (two days gives -2) and is not expired |
| `Subscriptions.HoldPeriodPassedExample` | spec/play_store/subscription_spec.rb:179-203 | with a nil payment state and cancel reason 1, the subscription is not pending, its payment failed, and it was not canceled by the user |
| `AcknowledgementFailures.Code` | lib/candy_check/play_store/acknowledgement_failure.rb:17-19 | `code` is the wrapped error's status code unchanged, nil included: with `message` it rebuilds the modelled error (status code and message) whenever the error carries a message |
| `AcknowledgementFailures.Message` | lib/candy_check/play_store/acknowledgement_failure.rb:23-25 | `message` is the error's message when there is one; it is "Unknown error" only when the message is nil or is that same text |
| `AcknowledgementFailures.FailureDeterminesError` | lib/candy_check/play_store/acknowledgement_failure.rb:6-25 | for errors that carry a message, `code` and `message` determine the modelled error (status code and message) |
| `AcknowledgementFailures.EmptyMessageKept` | lib/candy_check/play_store/acknowledgement_failure.rb:24 | an empty message is returned as is, not replaced |
| `AcknowledgementFailures.InsufficientPermissionsExample` | lib/candy_check/play_store/acknowledgement_failure.rb:17-25 | a 401 error with a message gives code 401 and that message |
| `PlayClient.Rescue` | lib/candy_check/play_store/acknowledgement.rb:28-33 | success is wrapped, a Google API error becomes a failure value holding it, and any other error is raised unchanged |
| `Acknowledgements.Call` | lib/candy_check/play_store/acknowledgement.rb:28-39 | `call!` invokes `acknowledge(package, product_id, token)` once. It returns a Receipt of the response on success and a failure holding the error on a Google API error. Any other error is raised |
| `Acknowledgements.CallReadsOnlyAcknowledge` | lib/candy_check/play_store/acknowledgement.rb:37-39 | two clients that agree on `acknowledge` at the bound arguments give the same execution |
| `Acknowledgements.ApiErrorIsReturned` | lib/candy_check/play_store/acknowledgement.rb:31-32 | a Google API error is never raised, and its status code reaches the failure's `code` |
| `Acknowledgements.MissingAcknowledgeRaises` | lib/candy_check/play_store/acknowledgement.rb:37-39 | with a client that has no `acknowledge` method, `call!` always raises the client's error |
| `SubscriptionAcknowledgements.Call` | lib/candy_check/play_store/subscription_acknowledgement.rb:9-20 | `call!` invokes `acknowledge_subscription_purchase(package, product_id, token)` once. It wraps the response in a Subscription and turns a Google API error into an AcknowledgementFailure. Any other error is raised |
| `SubscriptionAcknowledgements.CallReadsOnlySubscriptionAcknowledge` | lib/candy_check/play_store/subscription_acknowledgement.rb:16-20 | the override replaces `acknowledge`: the result depends only on `acknowledge_subscription_purchase`, and `acknowledge` is never invoked |
| `SubscriptionAcknowledgements.EmptyResponseWrapped` | spec/play_store/subscription_acknowledgement_spec.rb:14-22 | an empty response is wrapped unchanged |
| `SubscriptionAcknowledgements.InsufficientPermissionsExample` | spec/play_store/subscription_acknowledgement_spec.rb:25-32 | a 401 Google API error gives an AcknowledgementFailure with code 401 and the error's message |
| `SubscriptionVerifications.Call` | lib/candy_check/play_store/subscription_verification.rb:9-20 | `call!` invokes `verify_subscription(package, product_id, token)` once. It wraps the response in a Subscription and turns a Google API error into a VerificationFailure. Any other error is raised |
| `SubscriptionVerifications.CallReadsOnlyVerifySubscription` | lib/candy_check/play_store/subscription_verification.rb:16-20 | the result depends only on `verify_subscription`, and the product `verify` is never invoked |
| `SubscriptionVerifications.CallPreservesFields` | lib/candy_check/play_store/subscription_verification.rb:11-13 | a success keeps the response's acknowledgement state, and a failure keeps the error's status code |
| `SubscriptionVerifications.AcknowledgedExpiredExample` | spec/play_store/subscription_verification_spec.rb:15-43 | the test response (acknowledged, expiring 2016-05-01) verifies as acknowledged and expired |
| `Acknowledgers.New` | lib/candy_check/play_store/acknowledger.rb:16-18 | a new acknowledger is unbooted and `config_key_path` returns the given path |
| `Acknowledgers.BootError` | lib/candy_check/play_store/acknowledger.rb:59-67 | one error class serves both call sites, and its message identifies the site: the message equals a site's message exactly for the site that raised it |
| `Acknowledgers.Booted` | lib/candy_check/play_store/acknowledger.rb:55-57 | `booted?` holds exactly when `@client` has been assigned: the only unbooted acknowledger is the freshly constructed one for its path |
| `Acknowledgers.Boot` | lib/candy_check/play_store/acknowledger.rb:21-25 | when booted, `boot!` raises BootRequiredError and calls nothing, leaving the state unchanged. Otherwise it assigns the client made from the path and calls that client's `boot!` once. The result is `()` when that succeeds and the client boot's own error when it raises. It ends booted either way |
| `Acknowledgers.Acknowledge` | lib/candy_check/play_store/acknowledger.rb:33-37 | unbooted, it raises BootRequiredError and calls nothing. Booted, it relays the Acknowledgement's invocations and result. The state never changes |
| `Acknowledgers.AcknowledgeSubscription` | lib/candy_check/play_store/acknowledger.rb:45-51 | the same gate, then relays the SubscriptionAcknowledgement's invocations and result; the state never changes |
| `Acknowledgers.BootedIsFinal` | lib/candy_check/play_store/acknowledger.rb:21-51 | from a booted state, no sequence of calls changes the acknowledger or gets a `boot!` past the guard |
| `Acknowledgers.RunFromUnbooted` | lib/candy_check/play_store/acknowledger.rb:21-25 | from unbooted, a run ends booted exactly when it contains a `boot!`. The client is then the one made from the path, and exactly one `boot!` got past the guard |
| `Acknowledgers.UnbootedRejects` | spec/play_store/acknowledger_spec.rb:14-18 | before `boot!`, both operations raise BootRequiredError for every argument and invoke nothing |
| `Acknowledgers.SecondBootRejected` | spec/play_store/acknowledger_spec.rb:20-30 | the first `boot!` holds the client made from the path; a second `boot!` raises BootRequiredError whatever the first boot's outcome |
| `Acknowledgers.RealClientAcknowledgeRaises` | lib/candy_check/play_store/acknowledger.rb:23-36 | when `Client.new` yields a client without `acknowledge`, as the real client is, every `acknowledge` after `boot!` raises a non-API error |
| `Acknowledgers.DefinedAcknowledgeReturns` | lib/candy_check/play_store/acknowledger.rb:33-37 | when the booted client defines `acknowledge` and raises only Google API errors from it, `acknowledge` after `boot!` always returns a receipt or a failure |
| `Acknowledgers.BootedAcknowledgeCallsHeldClient` | spec/play_store/acknowledger_spec.rb:32-60 | once booted, each operation invokes exactly its client method with the given arguments in order, and returns the result of its call object built over the held client |

## Findings

| source | as written | input that shows it | evidently intended | confidence | as-written member | corrected member |
|---|---|---|---|---|---|---|
| lib/candy_check/play_store/acknowledgement.rb:38 | `acknowledge!` calls `@client.acknowledge`, but the `Client` the acknowledger always builds (acknowledger.rb:23) defines only `verify`, `verify_subscription` and `acknowledge_subscription_purchase` (client.rb:48-82) | any `Acknowledger#acknowledge(package, product_id, token)` after `boot!`: `NoMethodError` escapes, since it is not a `Google::Apis::Error` | the client defines `acknowledge`, so the call returns a `Receipt` or an `AcknowledgementFailure` and never raises | high, not executed | `Acknowledgers.RealClientAcknowledgeRaises` | `Acknowledgers.DefinedAcknowledgeReturns` |

## Left out

- A `Google::Apis::Error` is reduced to its status code and message (`Outcomes.ApiError`). Its class (`ClientError`, `ServerError`, ...), header, body and cause are not modelled. `AcknowledgementFailures.Code` and `AcknowledgementFailures.FailureDeterminesError` rebuild and determine that reduced error only.
- AcknowledgementFailures.Code: rebuilds only the status code and message of the wrapped error, not its class, header, body or cause.
- AcknowledgementFailures.FailureDeterminesError: `code` and `message` determine only the status code and message of the wrapped error.
- lib/candy_check/play_store/client.rb: OAuth credential exchange, opening the key file and HTTP through the Google SDK are I/O. They are replaced by the abstract `PlayClient.Client`, and a client's `boot!` is a parameter of `Acknowledgers.Boot`.
- lib/candy_check/cli/commands/play_store.rb and lib/candy_check/play_store.rb: argument handling, printing and `require` lines, with no logic of the core.
- `Time.at`, `to_date` and `Date.today`: calendar and time-zone conversion. The day number of today and the seconds-to-day function are parameters. Only UTC is given concretely (`EpochTime.UtcDay`).
- The Google gem's coercion of JSON strings such as `'1'` into integers is library behaviour. Raw attributes here are already typed.
- `Verifier`, `Verification` and the body of `VerificationFailure` are not part of this model. `VerificationFailure` appears only as the wrapper of its error, with `code`.
- Readers on a nil object: `SubscriptionAcknowledgement` wraps whatever the client answers, including nil, and Ruby would then raise `NoMethodError` from every reader. The model represents the empty answer as `Subscriptions.EmptyPurchase` (every attribute nil), whose readers answer nil.
- `Receipts.PurchasedAt`, `Subscriptions.StartsAt`, `Subscriptions.ExpiresAt`, `Subscriptions.OverdueDays`, `Subscriptions.Expired`: where the millis attribute is nil, Ruby raises `NoMethodError`; the model answers `None` instead of modelling that exception.
- "Exactly once" is stated through the invocation trace each call returns. The mutable recording client of the tests is not modelled.
- The readers `package`, `product_id` and `token` of the call objects are the datatype destructors, so they return what was bound by construction.
- Side effects of a client's own `boot!` on that client (its authorised API handle) are not visible through the interface. The call itself is recorded as `ClientBoot` in the trace.
- Concurrency: the core is sequential and synchronous, and nothing here is shared between calls.
