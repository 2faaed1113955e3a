# Checkout, automation and login protocols

A Dafny model of the stateful parts of the backend: checkout orders and their
idempotency, the order lifecycle and its accounting, rule versions, cursor
paging, the automation event dispatcher and its logs, login throttling, the
pincode cache, phone-verification sessions and the shopper's address book.
`dafny verify dfyconfig.toml` checks the whole project.

## How it is modelled

- A table is a map or a sequence, and each `$transaction` is one step. Code
  outside a transaction is split at its database calls in `CheckoutIdempotency`,
  `CheckoutInitiation`, `RequestIdempotency`, `AutomationDispatch`,
  `CommunicationRace` and `LoginThrottle`, where any number of calls interleave. A
  step that is not possible in a state does nothing, so every list of steps is a run
  and the results hold of all lists.
- Elsewhere each call is one step. This includes the session service and the
  address book, which read and then write without a transaction.
- Objects that the source updates in place are classes; each method is proved
  equal to a step of the specification, and the results are proved about runs
  of steps.
- A unique conflict inside a transaction aborts it, as PostgreSQL
  (`prisma/schema.prisma:6`) does: the read by which `recordEvent` would recover
  fails too, and everything rolls back. So a payment's telemetry events, whose
  unique keys (`prisma/schema.prisma:4359`) name the payment, are recorded once.
- The unique keys behind the compound `findUnique` names hold. Transactions are
  serializable. Clocks never go backwards, and a call reads its clock once.
- Hashes and signatures are collision free: a request hash is modelled by what
  is hashed, a token hash by the token, a phone hash by the phone.
- `localeCompare` is a weight on strings: any total preorder, ties included.
- Random ids, the clock, the outcome of a payment, of a POST and of a password
  check, and the verdict of field and rule validation are parameters.

## What turned out differently from what one might expect

- `stableNormalize` is canonical exactly for bodies in which no two sibling keys
  tie under `localeCompare` (`StableJson.CanonicalIffTieFree`).
- A call that read its idempotency key before the winner committed is refused,
  not replayed, if the quote expires before its transaction
  (`CheckoutIdempotency.RacerReplaysIff`). A completion that races a failed one on
  its own key gets a 500 (`CaptureRacerReplaysIff`).
- `initiatePayment` writes `initiated` without looking at the payment again. The
  accounting stays right in every run all the same, because a payment's second
  `payment_succeeded` event rolls its capture back. What a first initiation breaks
  when it lands on a settled payment is the payment's own column
  (`CheckoutLedger.PaymentAgreesIffTimely`). Then one double capture does commit: of
  an order captured and stopped while an initiation was in flight, and it books a
  refund (`LateInitiationCapturesTwice`, `CheckoutInitiation.DoubleCaptureIff`).
- `cancelled` and `expired` are not final: a late capture moves them to
  `refund_due`. Stopping an order after its payment was captured books no refund
  (`CheckoutLedger.StoppingAPaidOrderBooksNoRefund`).
- A prepaid or partial order with nothing to pay now stays pending for ever,
  although its accounting already has an `order_confirmed` row
  (`CheckoutLedger.DeliverableIff`).
- `requireIdempotency` never replays anything. Its update of the row is not awaited
  (`src/middleware/idempotency.ts:66`), and a Prisma query is sent only when its
  promise is asked for, so no response is ever stored: every later request on a key
  ends in 409, or in the 500 of a failed insert
  (`RequestIdempotency.NothingIsReplayed`, `LaterRequestsAreTurnedAway`). Awaiting the
  update makes it replay, with status 200 whatever the status was and never a falsy
  body (`ReplayRepeatsHandledBody`, `WrittenResponseDecidesRetries`).
- The cursor of `listOrders` and `listAudit` is complete exactly when no two
  matching rows share a creation time (`CursorPaging.PagingCompleteIffNoTies`).
- The retry limit of an automation event, and the monthly cap of a repeat buyer on a
  channel, hold of all runs exactly when no two calls for the same event, or the same
  buyer, channel and month, overlap between check and write (or the limit is zero);
  otherwise the bound is the limit plus the overlap less one, and it is reached
  (`AutomationDispatch.RetryLimitHoldsIff`, `CommunicationRace.CapHoldsIff`).
- A processed event stays processed exactly when no dispatch still holds a status
  read before (`AutomationDispatch.ProcessedIsFinalIffNoStaleReader`).
- Hourly deferral leaves quiet hours exactly when at least an hour of the day is
  free of them (`QuietHours.HourlyEscapesIffGap`).
- A generated communication key is shared with a message to another recipient
  exactly when the recipient holds a separator, as the source's own `buyer:<id>`
  does, or the template does before its end (`CommunicationLog.KeySharedIff`).
- A channel result that names a provider's message is logged as that message unless
  the message id ends in a blank (`CommunicationCallbacks.ResultIsItsMessageIff`); and
  a callback that reports a failure takes an event out of PROCESSED
  (`CommunicationCallbacks.CallbackWritesEvent`).
- A counter of the frequency ledger falls behind the rows exactly when a call of
  its cell stops between creating its row and counting it
  (`CommunicationRace.CountersEqualRowsIff`).

## Model

| member | source | states |
|---|---|---|
| StableJson.CanonicalIffTieFree | src/modules/checkout/checkout-order.service.ts:62-70 | a body's normal form equals that of every reordering of it at every depth, and of nothing else, if and only if no two sibling keys tie under the collation |
| StableJson.CanonicalForm | src/modules/checkout/checkout-order.service.ts:62-70 | for tie-free bodies with distinct keys, equal normal forms if and only if equal up to the order of keys at every depth |
| StableJson.EqualFormsAreSame | src/modules/checkout/checkout-order.service.ts:62-70 | equal normal forms always mean equal up to key order, with or without ties |
| StableJson.TieBreaksCanonicalForm | src/modules/checkout/checkout-order.service.ts:66 | every body with tied sibling keys has a reordering with another normal form |
| StableJson.NormalizeIsIdempotent | src/modules/checkout/checkout-order.service.ts:62-70 | normalising twice is normalising once, for all bodies and collations |
| StableJson.SortIsSorted | src/modules/checkout/checkout-order.service.ts:65-66 | the entries come out in collation order |
| StableJson.SortPermutes | src/modules/checkout/checkout-order.service.ts:65-66 | no entry is lost, added or changed by the sort |
| StableJson.SortKeepsTies | src/modules/checkout/checkout-order.service.ts:65-66 | tied entries keep their order |
| StableJson.RequestHashesAgree | src/modules/checkout/checkout-order.service.ts:72-74 | under a collision-free digest two tie-free bodies share a request hash if and only if they are the same request |
| CheckoutQuote.Clamp | src/modules/checkout/checkout-quote.service.ts:183-188 | the result respects the maximum, the minimum unless the maximum forbids it, and a value already inside is kept |
| CheckoutQuote.QuoteSplitsExactly | src/modules/checkout/checkout-quote.service.ts:288-365 | every option splits its total into now and on delivery exactly, totals items plus fee less discount, never asks for more than the items in advance, and is only available for a non-empty cart |
| CheckoutQuote.QuoteFailsIffBps | src/modules/checkout/checkout-quote.service.ts:176-206 | quoting fails if and only if a percentage that is read exceeds 10000 basis points; partial COD is never dearer than full COD |
| CheckoutQuote.QuoteFollowsRules | src/modules/checkout/checkout-quote.service.ts:288-365 | discount, fee and advance are what their rules charge on the items, a percentage rounded down and then bounded; discount and advance never exceed the items; the fee is waived from the cart value that waives it, and for partial COD if the rules say so |
| CheckoutQuote.ModesAreOfferedIff | src/modules/checkout/checkout-quote.service.ts:300-345 | prepaid is offered if and only if the cart is not empty; COD moreover only where it is served, in full unless an advance is forced at a risky place, and in part only if enabled and from its minimum |
| CheckoutQuote.CartAddsUp | src/modules/checkout/checkout-quote.service.ts:284-286 | the total is additive over the cart, and an item counts its price as often as its quantity |
| CheckoutOrders.CheckoutOrderRow.CreateFromQuote | src/modules/checkout/checkout-order.service.ts:302-469 | the rows written for a new order: amounts of the chosen option, initial state, COD status, token, payment if something is due now, timeline and accounting events |
| CheckoutLifecycle.PlacementStands | src/modules/checkout/checkout-order.service.ts:317-347 | in every run the order keeps its quote, token, payment and the half hour for an advance, its rows begin with those of its placement, and the payment's state agrees with the events recorded for it |
| CheckoutOrders.CheckoutOrderRow.FindCreated | src/modules/checkout/checkout-payment.service.ts:53-58 | the read outside the transaction: is the payment created? |
| CheckoutOrders.CheckoutOrderRow.WriteInitiated | src/modules/checkout/checkout-payment.service.ts:59-66 | the transaction, at any later time: the payment becomes initiated whatever it is by then, or nothing changes if the attempt is recorded already |
| CheckoutOrders.CheckoutOrderRow.InitiatePayment | src/modules/checkout/checkout-payment.service.ts:52-67 | the two with nothing in between: a created payment becomes initiated, any other stays |
| CheckoutLifecycle.InitiationWrites | src/modules/checkout/checkout-payment.service.ts:58-67 | an initiation of a created payment, or one that comes late to any, makes it initiated and records the attempt once; nothing else changes |
| CheckoutOrders.CheckoutOrderRow.CaptureInTransaction | src/modules/checkout/checkout-payment.service.ts:121-312 | the payment, order, timeline, accounting and event rows after a completion, whether it had been captured before, and that a completion whose event is recorded already rolls everything back |
| CheckoutLifecycle.FailureWrites | src/modules/checkout/checkout-payment.service.ts:138-172 | a first failure of an open payment marks it failed and nothing else; a second one changes nothing |
| CheckoutLifecycle.SuccessWrites | src/modules/checkout/checkout-payment.service.ts:174-312 | a first success of an open payment confirms the order and books the capture, or, for a stopped order, marks payment and order refund_due and books capture and refund |
| CheckoutOrders.CheckoutOrderRow.Record | src/modules/checkout/checkout-telemetry.service.ts:330-361 | an event is inserted once; a second insert takes the whole transaction back |
| CheckoutOrders.ConflictIff409 | src/modules/checkout/checkout-admin.service.ts:468-471 | the refusals that leave an audit row are those with status 409 |
| CheckoutOrders.CheckoutOrderRow.TransitionOrder | src/modules/checkout/checkout-admin.service.ts:363-473 | the order, timeline, accounting and audit rows after a transition, its refusal, and that a repeat is a no-op |
| CheckoutLedger.TransitionMovesOrNot | src/modules/checkout/checkout-admin.service.ts:375-473 | a repeated or refused transition writes at most an audit row; an accepted one writes one timeline row, one lifecycle event and, if cash is due on delivery, one collection event of that amount |
| CheckoutLifecycle.StatesParseBack | src/modules/checkout/checkout-admin.service.ts:149-155 | a text names a state if and only if, trimmed and in lower case, it is the name the state is stored under; the two pending states cannot be named |
| CheckoutLifecycle.MoveAcceptedIff | src/modules/checkout/checkout-admin.service.ts:129-147 | a move of any order is accepted if and only if it is the next step on the way to the buyer, paying what is due if that is the delivery, or a stop of an order neither delivered nor stopped, to expired only until it is packed |
| CheckoutLifecycle.MisplacedMoveIsAnswered | src/modules/checkout/checkout-admin.service.ts:131-146 | every other move is answered with 409 and the code for where the order stands |
| CheckoutLifecycle.UnpaidDeliveryIsRefused | src/modules/checkout/checkout-admin.service.ts:157-180 | a delivery with cash due is refused for the first thing wrong with its collection: missing, means, reference, unreadable amount, other amount |
| CheckoutLifecycle.FaultIsAnswered | src/modules/checkout/checkout-admin.service.ts:158-172 | the status and code of each of these, 409 for a wrong amount and 400 for the others |
| CheckoutLifecycle.MoveIsRecorded | src/modules/checkout/checkout-admin.service.ts:384-472 | an accepted move adds its line, its audit row and, with cash due, the reference, the means and a second audit row, all naming who moved it; a refused one changes nothing but adds a rejection to the audit if and only if it is answered with 409 |
| CheckoutLedger.LedgerIsAPathToTheState | src/modules/checkout/checkout-admin.service.ts:129-147 | in every run, late initiations included, the accounting rows replay to the stored state, each lifecycle row starting where the rows before it ended; at most three moves are ever accepted, and the timeline has one row for each |
| CheckoutLedger.MoneyIsConserved | src/modules/checkout/checkout-admin.service.ts:157-180 | in every run the COD status is collected if and only if the order is delivered with cash due, with exactly one collection event of that amount and otherwise none; a delivered order holds exactly the quoted total; a pending one nothing; a stopped one what was captured before the stop; a second capture, or a refund, exists only in refund_due |
| CheckoutLedger.StoppingAPaidOrderBooksNoRefund | src/modules/checkout/checkout-admin.service.ts:140-142 | an order stopped after its capture holds the captured money and has no refund row |
| CheckoutLedger.DeliveredIsFinal | src/modules/checkout/checkout-admin.service.ts:133-146 | after delivery only audit rows are ever written, except that a late initiation may still change the payment's own row |
| CheckoutLedger.StoppedIsForEver | src/modules/checkout/checkout-payment.service.ts:174-239 | a cancelled, expired or refund_due order never leaves these states, its timeline ends, and it becomes refund_due by a late capture only |
| CheckoutLedger.StoppedStaysStopped | src/modules/checkout/checkout-payment.service.ts:174-239 | when no initiation overwrites a settled payment, a stopped order becomes refund_due with a booked refund if and only if an unsettled payment is captured late |
| CheckoutLedger.DeliverableIff | src/modules/checkout/checkout-order.service.ts:315-316 | some run delivers the order if and only if it is full COD or has something to pay now |
| CheckoutLedger.LateInitiationKeepsTruthIff | src/modules/checkout/checkout-payment.service.ts:58-67 | a late initiation never touches the books, and leaves the payment's column agreeing with them if and only if it is not a first one on a settled payment |
| CheckoutLedger.PaymentAgreesIffTimely | src/modules/checkout/checkout-payment.service.ts:58-67 | payment, other columns and books agree after every step of a run if and only if no first initiation is written over a settled payment |
| CheckoutLedger.LateInitiationCapturesTwice | src/modules/checkout/checkout-payment.service.ts:174-239 | for an order captured, then stopped, a first initiation still in flight and a success capture the amount a second time and book a refund of one of the two |
| CheckoutInitiation.DoubleCaptureIff | src/modules/checkout/checkout-payment.service.ts:52-67 | over all interleavings of initiations, each tied to a read that found the payment created, with everything else: some continuation captures twice if and only if no attempt is recorded, an initiation is in flight or can still begin, the order is not delivered, and it was not stopped unpaid |
| CheckoutInitiation.PlacedOrderIsCapturedTwiceIff | src/modules/checkout/checkout-payment.service.ts:52-67 | a newly placed order can come to be captured twice if and only if it has something to pay now |
| CheckoutIdempotency.CheckoutOrderService.CreateOrder | src/modules/checkout/checkout-order.service.ts:194-215 | the call is refused for an unknown or foreign quote or a blank key, and otherwise waits to read the key of the quote's merchant |
| CheckoutIdempotency.CheckoutOrderService.CompletePayment | src/modules/checkout/checkout-payment.service.ts:81-103 | the call is refused for an unknown payment, a token that does not open the order or a blank key, and otherwise waits to read its key |
| CheckoutCalls.RawRequestIsFiled | src/modules/checkout/checkout-order.service.ts:194-239 | a creating request is turned away for an unknown or foreign quote, then for a key of blanks, and is otherwise filed under the quote's merchant and the trimmed key that was sent |
| CheckoutCalls.RawCompletionIsFiled | src/modules/checkout/checkout-payment.service.ts:81-103 | a completing request on a found payment is turned away without the order's own token, then for a key of blanks, and is otherwise filed under the order's merchant, its payment and the trimmed key that was sent |
| Text.TrimCutsBlanks | src/modules/checkout/checkout-order.service.ts:238 | trimming takes blanks off both ends of a key and nothing else |
| CheckoutCalls.CallsStandForWhatWasSent | src/modules/checkout/checkout-order.service.ts:194-248 | in every interleaving each call stands, for good, under the key and for the quote, content, payment and outcome that were sent, or was turned away for the first thing wrong with them |
| CheckoutCalls.FreshKeyPlacesOrder | src/modules/checkout/checkout-order.service.ts:238-268 | whatever other keys and orders there are, a first request on a key, while the quote is open, replies with its new order as quoted, and adds exactly that order and the trimmed key |
| CheckoutCalls.FreshKeyCompletes | src/modules/checkout/checkout-payment.service.ts:85-103 | whatever other keys there are, a first completion on a key, with the order's token and an event the payment does not have yet, is carried out, and adds exactly that key |
| CheckoutIdempotency.CheckoutOrderService.FindExisting | src/modules/checkout/checkout-order.service.ts:241-253 | an existing key decides between replay and conflict by its request hash; otherwise the call goes on to execute |
| CheckoutIdempotency.CheckoutOrderService.TransactCreate | src/modules/checkout/checkout-order.service.ts:255-268 | order, payment and key are committed together, or nothing is: on a refusal and on a taken key |
| CheckoutCalls.TransactionPlacesIff | src/modules/checkout/checkout-order.service.ts:302-311 | on a free key an order is placed if and only if the quote has not expired, offers the mode and the fields are valid; otherwise nothing is written and the first of these is answered, 422 for expiry and 400 for the others |
| CheckoutIdempotency.CheckoutOrderService.TransactCapture | src/modules/checkout/checkout-payment.service.ts:95-103 | the captured order and the key are committed together, or nothing is: on a taken key and on a repeated payment event |
| CheckoutIdempotency.CheckoutOrderService.FindRaced | src/modules/checkout/checkout-order.service.ts:269-282 | after a collision only a row with the same request hash is replayed |
| CheckoutIdempotency.CheckoutOrderService.HydrateReplay | src/modules/checkout/checkout-order.service.ts:285-300 | the reply is made from the row's pointer and the order as it stands, or refused for a wrong pointer or a missing order |
| CheckoutIdempotency.OrdersPairWithKeys | src/modules/checkout/checkout-order.service.ts:230-283 | in every interleaving committed orders and creating keys are in bijection, within one merchant |
| CheckoutIdempotency.SuccessfulCallsAgree | src/modules/checkout/checkout-order.service.ts:230-283 | all successful calls on one (merchant, operation, key) sent the same request and got the same order, payment and token, or the same capture answer |
| CheckoutIdempotency.OtherRequestNeverSucceeds | src/modules/checkout/checkout-order.service.ts:250-253 | once a key is committed no call with another request hash succeeds under it, in any continuation |
| CheckoutIdempotency.LaterCallsReplay | src/modules/checkout/checkout-order.service.ts:250-253 | a call that arrives after the commit never executes: it is answered from the row, even after the quote expires, or refused as a conflict if and only if it sends something else |
| CheckoutIdempotency.RacerReplaysIff | src/modules/checkout/checkout-order.service.ts:255-282 | a creating call that read its key before the commit, and then executes, reads again and hydrates with any other steps between and after, gets the replay if and only if at its transaction the quote has not expired, offers the mode and the fields are valid; otherwise it is refused for good |
| CheckoutIdempotency.CaptureRacerReplaysIff | src/modules/checkout/checkout-payment.service.ts:95-103 | the same for a completing call, which goes through the same transaction: it gets the replay if and only if its own completion repeats no event of the payment; otherwise it ends in a 500 |
| CheckoutIdempotency.HydratedIsOk | src/modules/checkout/checkout-order.service.ts:285-300 | in every reachable state hydrating succeeds and repeats the row's answer: its 409 and 404 branches are never taken |
| CheckoutIdempotency.TokenOpensItsOrder | src/modules/checkout/checkout-order.service.ts:224-228 | a successful creation names an order for the asked quote, mode and merchant, and its token opens that order and no other |
| CheckoutCalls.SuccessIsAsQuoted | src/modules/checkout/checkout-order.service.ts:302-352 | in every run, replays included, a successful creation names an order with the amounts of its quote, placed before the quote expired, in a mode it offers |
| CheckoutShop.RetriesNeverUnbalance | src/modules/checkout/checkout-payment.service.ts:95-103 | however creations and captures are retried, raced and replayed under whatever keys, and however late initiations come, each order's rows replay to its state, a delivered order holds its total, and a second capture is only ever one that is refunded |
| RequestIdempotency.Middleware.Receive | src/middleware/idempotency.ts:6-17 | a request without merchant or key is rejected, any other starts |
| RequestIdempotency.Middleware.LookUp | src/middleware/idempotency.ts:19-31 | a truthy stored response is replayed with 200 |
| RequestIdempotency.Middleware.Create | src/middleware/idempotency.ts:33-44 | the key row is inserted and the request handled, or it collides |
| RequestIdempotency.Middleware.LookUpAgain | src/middleware/idempotency.ts:46-60 | after a collision a truthy response is replayed, otherwise the request is refused as in progress |
| RequestIdempotency.Middleware.RespondJson | src/middleware/idempotency.ts:63-78 | the response goes out; the update of the row is left pending |
| RequestIdempotency.Middleware.StoreResponse | src/middleware/idempotency.ts:65-75 | what the update would do if it were sent: the body of the response replaces what the row held |
| RequestIdempotency.CallsStandForWhatArrived | src/middleware/idempotency.ts:6-17 | in every interleaving each call stands under the merchant, route and key it arrived with, and is turned away without a merchant, then without a key |
| RequestIdempotency.FreshKeyIsHandled | src/middleware/idempotency.ts:19-44 | whatever other rows there are, a first request on a key reaches its handler and adds exactly its row |
| RequestIdempotency.RepliesAreTheHandlers | src/middleware/idempotency.ts:63-78 | a handled request is answered with what its handler said |
| RequestIdempotency.LookUpsReplayIff | src/middleware/idempotency.ts:29-60 | a lookup replays with 200 if and only if the row holds a response that is none of null, false, 0 and the empty text; else the first goes on and the second is refused as in progress |
| RequestIdempotency.AtMostOneHandled | src/middleware/idempotency.ts:19-80 | in every interleaving at most one request per (merchant, route, key) reaches the handler |
| RequestIdempotency.NothingIsReplayed | src/middleware/idempotency.ts:63-78 | as the update is never sent: in every interleaving no row holds a response and no request is answered by a replay |
| RequestIdempotency.LaterRequestsAreTurnedAway | src/middleware/idempotency.ts:33-60 | as the update is never sent: a request that comes after its key was inserted is, at every moment, on its way to 409 in progress, there, or at the 500 of its own failed insert; it is never handled and never replayed |
| RequestIdempotency.LaterRequestsEndIn409 | src/middleware/idempotency.ts:46-60 | such a request ends in 409 once its three database calls are made, with any other steps between |
| RequestIdempotency.ReplayRepeatsHandledBody | src/middleware/idempotency.ts:29-31 | with the update awaited: every replayed body is the one sent by the handled request; the whole reply is repeated if and only if that request was answered with 200 |
| RequestIdempotency.SettledForever | src/middleware/idempotency.ts:65-78 | with the update awaited: a stored response is never replaced |
| RequestIdempotency.WrittenResponseDecidesRetries | src/middleware/idempotency.ts:29-60 | with the update awaited: every request that comes after a truthy response was stored is answered with it; after a falsy one none ever is |
| RuleVersions.CheckoutAdminService.UpdateRules | src/modules/checkout/checkout-admin.service.ts:202-249 | the tables after an update, or the error and unchanged tables |
| RuleVersions.CheckoutAdminService.RollbackRules | src/modules/checkout/checkout-admin.service.ts:262-314 | the tables after a rollback, or the error and unchanged tables |
| RuleVersions.RulesJsonIsStorable | src/modules/checkout/checkout-admin.service.ts:47-54 | what is stored holds no bigint |
| RuleVersions.RulesJsonIsStored | src/modules/checkout/checkout-admin.service.ts:47-54 | what is stored is the body itself with each bigint, at any depth, as its decimal digits without a leading zero |
| RuleVersions.RulesJsonFixesStored | src/modules/checkout/checkout-admin.service.ts:47-54 | a stored body is stored again unchanged |
| RuleVersions.ReadsLastCommit | src/modules/checkout/checkout-admin.service.ts:188-200 | after any history a merchant reads the rules of its last committed update or rollback, the default if there is none |
| RuleVersions.RequestsAreAnswered | src/modules/checkout/checkout-admin.service.ts:202-314 | after any history an update or rollback is accepted or refused, with which error, as the history of commits says, and leaves one audit row of its kind or nothing |
| RuleVersions.ExactlyOneActive | src/modules/checkout/checkout-admin.service.ts:210-236 | exactly one version of a merchant with versions is active, and the setting points at it |
| RuleVersions.VersionsOnlyRetire | src/modules/checkout/checkout-admin.service.ts:210-223 | a version keeps its merchant and body for ever, and a retired one is never active again |
| RuleVersions.OtherMerchantsUntouched | src/modules/checkout/checkout-admin.service.ts:202-314 | no sequence of requests for other merchants changes what a merchant reads or any of its versions |
| RuleVersions.RollbackRestores | src/modules/checkout/checkout-admin.service.ts:262-314 | a rollback puts exactly the stored body of its source back in force under a new version |
| CursorPaging.ParseLimit | src/modules/checkout/checkout-admin.service.ts:73-80 | the default of 50, a number from 1 to 100, or an error |
| CursorPaging.PageShowsNext | src/modules/checkout/checkout-admin.service.ts:339-354 | a page shows the rows after the cursor up to the limit, and a next cursor if and only if rows remain |
| CursorPaging.FollowInOrder | src/modules/checkout/checkout-admin.service.ts:339-354 | each request of a client following the cursor shows the next rows in order, whatever its limit |
| CursorPaging.FollowIsComplete | src/modules/checkout/checkout-admin.service.ts:339-354 | over rows with distinct creation times every matching row is shown once, newest first, and the cursor ends |
| CursorPaging.TiesLoseRows | src/modules/checkout/checkout-admin.service.ts:487-497 | if two matching rows share a creation time, requests answered in different admissible orders lose a row |
| CursorPaging.PagingCompleteIffNoTies | src/modules/checkout/checkout-admin.service.ts:475-498 | paging is complete in every admissible order if and only if no two matching rows tie |
| AutomationDispatch.AutomationEventRow.MarkAutomationEventProcessed | src/modules/automation/autopilot.service.ts:6755-6765 | the event is processed, nothing else of it changes |
| AutomationDispatch.AutomationEventRow.FindAttempts | src/modules/automation/autopilot.service.ts:6768 | the read before the write |
| AutomationDispatch.AutomationEventRow.MarkAutomationEventFailed | src/modules/automation/autopilot.service.ts:6770-6778 | the write, at any later time: the event is failed, with a next attempt only if the attempts read were below the maximum |
| AutomationDispatch.AutomationEventRow.ClaimForDispatch | src/modules/automation/autopilot.service.ts:8170-8177 | the event is processing with one attempt more |
| AutomationDispatch.AutomationEventRow.FinishDispatch | src/modules/automation/autopilot.service.ts:8247-8264 | the event is dispatched only if it was last read as processing |
| AutomationDispatch.AutomationEventRow.RequeueForRetry | src/modules/automation/autopilot.service.ts:8324-8333 | the event is queued and due, its attempts kept |
| AutomationDispatch.AutomationEventRow.DeferForQuietHours | src/modules/automation/autopilot.service.ts:7316-7320 | the event is queued for an hour later |
| AutomationDispatch.OnlyDueEventsAreRead | src/modules/automation/autopilot.service.ts:7184-7194 | a dispatch goes on if and only if the event is queued or failed and its time has come; else it ends without a write |
| AutomationDispatch.LimitDecides | src/modules/automation/autopilot.service.ts:7346-7348 | a dispatch that read an attempt left can claim the event and is not refused for the limit; one that read none is the reverse |
| AutomationDispatch.WholeDispatch | src/modules/automation/autopilot.service.ts:8170-8264 | one dispatch of a due event with an attempt left POSTs once and leaves it dispatched with one attempt more |
| AutomationDispatch.OkLeavesDispatched | src/modules/automation/autopilot.service.ts:8247-8256 | a claimed event whose POST is answered ok ends dispatched, nothing else of it changed, whatever else is under way |
| AutomationDispatch.AnsweredIsNotPostedAgain | src/modules/automation/autopilot.service.ts:8251-8256 | an event answered ok is neither POSTed nor claimed again by any dispatches and callbacks, unless it is retried or a callback reports a failure |
| AutomationDispatch.EndingDecidesWhenDue | src/modules/automation/autopilot.service.ts:7313-7348 | after each ending without an answer, exactly when the event is due again: never, at once, an hour or a quarter of an hour later, and at no set time once its attempts are used up |
| AutomationDispatch.CallbackDecides | src/modules/automation/autopilot.service.ts:7011-7020 | a callback that reports success leaves the event processed and writes nothing if it read it so; one that reports a failure makes it failed and due a quarter of an hour later while the attempts read are below three, else at no set time |
| AutomationDispatch.CallbackReads | src/modules/automation/autopilot.service.ts:6782-6784 | a callback acts on the status it read before it logs anything |
| AutomationDispatch.RetryIsReadAsDue | src/modules/automation/autopilot.service.ts:8324-8335 | a retry makes any event due at once, and its dispatch reads it so |
| AutomationDispatch.PostsAreBounded | src/modules/automation/autopilot.service.ts:7346-7348 | in every interleaving of dispatches, responses, callbacks and retries, POSTs never exceed attempts, which never exceed the limit plus the overlapping dispatches less one, and none at limit zero |
| AutomationDispatch.SerialDispatchKeepsLimit | src/modules/automation/autopilot.service.ts:7346-7348 | without overlap POSTs and attempts stay within the limit, however often the event is retried |
| AutomationDispatch.BoundIsReached | src/modules/automation/autopilot.service.ts:8168-8177 | for every limit and every overlap some run reaches that bound |
| AutomationDispatch.RetryLimitHoldsIff | src/modules/automation/autopilot.service.ts:7346-7348 | all runs keep the retry limit if and only if at most one dispatch is ever between read and claim, or the limit is zero |
| AutomationDispatch.ProcessedStays | src/modules/automation/autopilot.service.ts:8247-8264 | without stale readers, a run with no retry, FAILED callback or failed POST keeps a processed event as it is, late ok responses included |
| AutomationDispatch.StaleReaderLosesProcessed | src/modules/automation/autopilot.service.ts:8247-8264 | any stale reader can take the event out of processed |
| AutomationDispatch.ProcessedIsFinalIffNoStaleReader | src/modules/automation/autopilot.service.ts:8247-8264 | processed is kept by all such runs if and only if there is no stale reader |
| CommunicationLog.DefaultKeysAgreeIff | src/modules/automation/autopilot.service.ts:985-992 | two generated keys agree if and only if event, campaign and channel do and recipient and template read the same once joined, whatever separators those two hold |
| CommunicationLog.KeySharedIff | src/modules/automation/autopilot.service.ts:981-993 | a message to another recipient has the same generated key if and only if the recipient holds a separator, or the template does before its last character |
| CommunicationLog.ExplicitKeysAgreeIff | src/modules/automation/autopilot.service.ts:982 | two keys that were sent agree if and only if they are the same text trimmed |
| CommunicationLog.ProviderKeysAgreeIff | src/modules/automation/autopilot.service.ts:983 | two messages of providers without a separator in their names share a key if and only if provider and message id agree |
| CommunicationLog.ProviderKeySharedIff | src/modules/automation/autopilot.service.ts:983 | a provider's key is shared with a message of another provider if and only if the provider holds a separator after its first character, or the message id one before its last |
| CommunicationLog.MessageKeysAgreeIff | src/modules/automation/autopilot.service.ts:984 | messages with an id and no provider share a key if and only if they share the id |
| CommunicationLog.KindsNeverMeet | src/modules/automation/autopilot.service.ts:981-993 | a provider's key, a message id's and a generated one are never the same |
| CommunicationLog.DifferentMessagesBothLog | src/modules/automation/autopilot.service.ts:6680-6750 | two different messages of providers both get their row, and each day counter and each meter grows by those of the two that belong to it |
| CommunicationLog.RowsAreFirstOnTheirKey | src/modules/automation/autopilot.service.ts:6680-6709 | over every run the rows are exactly those of the first message on each key, as it was sent and under its own day |
| CommunicationLog.ReserveKeysAgreeIff | src/modules/automation/autopilot.service.ts:4890-4910 | two reservations count together if and only if merchant, buyer, channel and month agree |
| CommunicationLog.AutomationLogs.Log | src/modules/automation/autopilot.service.ts:6677-6753 | an existing row is returned and nothing written; otherwise row, day ledger and meter are written |
| CommunicationLog.AutomationLogs.LogCallbackCommunication | src/modules/automation/autopilot.service.ts:6799-6833 | a communication of another merchant or campaign is refused unlogged, any other is logged under the source event |
| CommunicationLog.AutomationLogs.LogAll | src/modules/automation/autopilot.service.ts:6839-6842 | the list is logged in order up to the first refusal |
| CommunicationLog.AutomationLogs.HandleAutomationCallback | src/modules/automation/autopilot.service.ts:6781-7039 | the logs, the event row and the error after a callback with all its lists |
| CommunicationLog.LedgerAndMeterCountRows | src/modules/automation/autopilot.service.ts:6707-6750 | over every run one row per (merchant, key); the day ledger of a recipient and channel counts its rows of that day; each message meter counts the rows of its month, event, workflow and channel that failed, were sent on or were only attempted |
| CommunicationLog.MonthTotalCountsRows | src/modules/automation/autopilot.service.ts:995-1031 | the three message meters of a month sum to the rows logged in it |
| CommunicationLog.ExecutionMeterCountsExecutions | src/modules/automation/autopilot.service.ts:995-1031 | the execution meter of a cell counts the executions that belong to it |
| CommunicationLog.MonthCountsReservations | src/modules/automation/autopilot.service.ts:4890-4910 | the month's counter of a buyer and channel counts the reservations made for them in that month |
| CommunicationLog.RedeliveryIsSilent | src/modules/automation/autopilot.service.ts:6680-6689 | delivering the same inputs again into any later state writes nothing and returns the first rows |
| CommunicationRace.LogCalls.LogCommunication | src/modules/automation/autopilot.service.ts:6677-6679 | the call begins, under its key |
| CommunicationRace.LogCalls.FindFirst | src/modules/automation/autopilot.service.ts:6680-6689 | an existing row of the key is returned |
| CommunicationRace.LogCalls.CreateRow | src/modules/automation/autopilot.service.ts:6707-6709 | the row is created, or the unique index refuses it and the call fails |
| CommunicationRace.LogCalls.UpsertLedger | src/modules/automation/autopilot.service.ts:6711-6733 | the day's counter of recipient and channel goes up by one |
| CommunicationRace.LogCalls.RecordUsage | src/modules/automation/autopilot.service.ts:6735-6750 | the meter of the row goes up by one |
| CommunicationRace.LogCalls.CheckMonthlyFrequency | src/modules/automation/autopilot.service.ts:4861-4879 | allowed if and only if the month's count is below the cap |
| CommunicationRace.LogCalls.ReserveMonthlyFrequency | src/modules/automation/autopilot.service.ts:4890-4910 | the month's count goes up by one, without another look at the cap |
| CommunicationRace.OneWriterPerRow | src/modules/automation/autopilot.service.ts:6680-6709 | in every interleaving of the awaits of any number of calls a key has at most one row, written by exactly one call |
| CommunicationRace.CountersAndPendingAreRows | src/modules/automation/autopilot.service.ts:6707-6750 | in every interleaving each day counter and each message meter, with the calls still to count, is the number of rows |
| CommunicationRace.CountersEqualRowsIff | src/modules/automation/autopilot.service.ts:6707-6733 | a day counter never exceeds its rows, and equals them if and only if no call of its cell stands between create and upsert |
| CommunicationRace.CallsReturnOneRow | src/modules/automation/autopilot.service.ts:6680-6752 | all calls on one key that return, return the same row |
| CommunicationRace.CallsLogWhatWasAsked | src/modules/automation/autopilot.service.ts:6677-6699 | each call logs the row it began with |
| CommunicationRace.FreshKeyIsLogged | src/modules/automation/autopilot.service.ts:6680-6750 | a first call on a key, once through, has logged its row and counted it once in its day cell and its meter and nowhere else |
| CommunicationRace.LaterCallsReturnTheRow | src/modules/automation/autopilot.service.ts:6680-6689 | a call that begins after the row is there returns this row and never fails on the unique index, whatever else is under way |
| CommunicationRace.ReservationsAreBounded | src/modules/automation/autopilot.service.ts:4852-4911 | the reservations of a buyer on a channel in a month never exceed the cap plus the calls for the same three that overlap between check and reservation, less one, whatever is under way for others |
| CommunicationRace.CapHoldsIff | src/modules/automation/autopilot.service.ts:4852-4911 | all runs keep the cap if and only if at most one call for that buyer, channel and month is ever between check and reservation, or the cap is zero |
| CommunicationRace.ChannelsDoNotOverlap | src/modules/automation/autopilot.service.ts:5047-5085 | a dispatch that checks EMAIL and then WHATSAPP before it reserves either is a run without overlap |
| CommunicationLog.ReplayIsIdempotent | src/modules/automation/autopilot.service.ts:6781-7020 | replaying a callback of arbitrary lists, duplicates included and whatever was logged between, leaves logs, ledger, meter and a processed event as they were |
| CommunicationLog.AcceptedCallbackLogsAll | src/modules/automation/autopilot.service.ts:6835-7019 | an accepted PROCESSED callback leaves the event processed and every input logged under its key |
| CommunicationCallbacks.CallbackAcceptedIff | src/modules/automation/autopilot.service.ts:6794-6817 | a callback is accepted if and only if it is sent for the event's merchant or none and each message is the merchant's, with no campaign or one of the merchant's; else it is answered with 403 |
| CommunicationCallbacks.DeliveryFailsAtFirstStranger | src/modules/automation/autopilot.service.ts:6799-6842 | a delivery stops at the first message that is not, with the ones before it logged |
| CommunicationCallbacks.CallbackWritesEvent | src/modules/automation/autopilot.service.ts:7011-7020 | a refused callback leaves the event; one that reports a failure makes it failed, even if it was processed; one that reports success makes it processed unless it is |
| CommunicationCallbacks.NewRowsAreTheEvents | src/modules/automation/autopilot.service.ts:6819-6833 | every row a callback adds is one of its inputs, filed for the source event, its merchant and its workflow whatever the input said of these |
| CommunicationCallbacks.ResultIsFiled | src/modules/automation/autopilot.service.ts:6959-6983 | a channel result is filed with its status in capitals, for its recipient, else its sender, else the fallback, under its template, else the channel's |
| CommunicationCallbacks.SkipsAreOneIff | src/modules/automation/autopilot.service.ts:6965-6967 | two skips of one event are logged as one if and only if channel and reason agree |
| CommunicationCallbacks.ResultsAreOneIff | src/modules/automation/autopilot.service.ts:6968-6973 | two results without a provider's message are logged as one if and only if channel, status in capitals and reason agree |
| CommunicationCallbacks.SkipIsNoOtherResult | src/modules/automation/autopilot.service.ts:6965-6973 | a skip and another result are never logged as one |
| CommunicationCallbacks.ResultIsItsMessageIff | src/modules/automation/autopilot.service.ts:6971-6972 | a result that names a provider's message is logged as that message if and only if the message id does not end in a blank |
| QuietHours.QuietIsModular | src/modules/automation/autopilot.service.ts:782-792 | for clock times the test is (now - start) mod 1440 < (end - start) mod 1440 |
| QuietHours.ModularIffRegular | src/modules/automation/autopilot.service.ts:782-792 | for arbitrary minutes the two agree at every minute of the day if and only if the pair is regular |
| QuietHours.QuietHoursAreModular | src/modules/automation/autopilot.service.ts:782-792 | the same for two preference texts that are times of day |
| QuietHours.ClockTextReads | src/modules/automation/autopilot.service.ts:782-787 | a preference text is two digits, a colon and two digits, and is read as that many hours and minutes |
| QuietHours.QuietHoursModularIffRegular | src/modules/automation/automation.routes.ts:116-117 | of all the texts the route admits, exactly the regular pairs are taken around the clock |
| QuietHours.DeferralsEscape | src/modules/automation/autopilot.service.ts:7313-7331 | deferrals of an hour or more, each no longer than the free stretch, leave quiet hours within the quiet length in hours, rounded up |
| QuietHours.ShortGapStarves | src/modules/automation/autopilot.service.ts:7313-7331 | with less than an hour free, some event is deferred at every hour for ever |
| QuietHours.HourlyEscapesIffGap | src/modules/automation/autopilot.service.ts:7313-7331 | hourly deferral always ends if and only if an hour of the day is free |
| AuthAbuse.WindowsAreDisjoint | src/modules/auth/auth-abuse.service.ts:46-48 | window starts grow with time, two windows do not overlap, and every time inside a window has its start |
| AuthAbuse.DelayTable | src/modules/auth/auth-abuse.service.ts:88-95 | the delay per attempt: none before the third, doubling from a second, capped at thirty from the eighth |
| AuthAbuse.AuthAbuseStates.IncrementScope | src/modules/auth/auth-abuse.service.ts:97-165 | the row after an increment, on both code paths |
| AuthAbuse.AuthAbuseStates.RecordAuthFailure | src/modules/auth/auth-abuse.service.ts:194-258 | both rows and the answer after a failure |
| AuthAbuse.AuthAbuseStates.GetAuthAbuseStatus | src/modules/auth/auth-abuse.service.ts:167-192 | the status read from the two rows |
| AuthAbuse.AuthAbuseStates.ResetAuthAccountFailures | src/modules/auth/auth-abuse.service.ts:260-262 | the account's row is gone, others stay |
| AuthAbuse.StoreReflectsLog | src/modules/auth/auth-abuse.service.ts:97-165 | every row is what the log of failures and resets says of its scope |
| AuthAbuse.StatusReadsLog | src/modules/auth/auth-abuse.service.ts:167-192 | the status is a reading of the log: failures in the current window since the last reset, locked from the eighth, network blocked from the twentieth |
| AuthAbuse.FailureReadsLog | src/modules/auth/auth-abuse.service.ts:194-258 | a failure reports the counts with itself in and asks for a notification on the eighth only |
| AuthAbuse.NotifiedOncePerWindow | src/modules/auth/auth-abuse.service.ts:207-242 | between resets an account is notified exactly once in a window that reaches the threshold, else never |
| AuthAbuse.PathsAgree | src/modules/auth/auth-abuse.service.ts:97-165 | the raw SQL and the find/upsert path leave the same rows and report the same failures on every sequential run |
| LoginThrottle.LoginHandler.Login | src/modules/auth/auth.routes.ts:551-659 | one login: the delay slept, the verdict, the notification, which an unknown account never gets, and the rows it leaves |
| LoginThrottle.LoginIsARun | src/modules/auth/auth.routes.ts:551-659 | a login with nobody else in flight is a run of the interleaved steps and leaves the same row |
| LoginThrottle.AttemptsAreBounded | src/modules/auth/auth.routes.ts:558-563 | in every interleaving of at most N logins in flight the active attempts stay within 7 + N, and eight or more mean locked to the end of the window |
| LoginThrottle.BoundIsReached | src/modules/auth/auth.routes.ts:630-633 | for every N some interleaving reaches 7 + N |
| PincodeCache.BoundedPincodeCache.Get | src/modules/address/pincode.service.ts:35-41 | a hit moves its entry to the young end, a miss changes nothing |
| PincodeCache.BoundedPincodeCache.Set | src/modules/address/pincode.service.ts:43-51 | the entry becomes the youngest and the oldest are evicted down to the maximum |
| PincodeCache.EvictionStops | src/modules/address/pincode.service.ts:46-50 | eviction takes entries from the old end until the rest fits or an entry without a pin stands there |
| PincodeCache.AddressPincodeService.LookupPin | src/modules/address/pincode.service.ts:80-103 | the answer or error, and the cache after it |
| PincodeCache.CacheIsTransparent | src/modules/address/pincode.service.ts:80-103 | after any history a lookup answers the table's row field by field, with no localities if they are no list; 404 for an unknown pin, 400 for a text that is not six digits |
| PincodeCache.CacheIsRecencySuffix | src/modules/address/pincode.service.ts:30-52 | the cache is exactly the last maxEntries distinct found pins, oldest first |
| PincodeCache.LargerCacheContainsSmaller | src/modules/address/pincode.service.ts:30-52 | a larger cache on the same lookups contains the smaller one as its youngest part |
| AddressSession.CheckoutAddressSessionService.RequireActiveSession | src/modules/checkout/checkout-address-session.service.ts:273-293 | the refusal, and the session expired when its time is over |
| AddressSession.CheckoutAddressSessionService.StartPhoneVerification | src/modules/checkout/checkout-address-session.service.ts:130-176 | the session row and handle after a start, or the refusal |
| AddressSession.CheckoutAddressSessionService.ConfirmPhoneVerification | src/modules/checkout/checkout-address-session.service.ts:178-247 | the session row after a confirm in each of its branches |
| AddressSession.CheckoutAddressSessionService.RequireVerifiedCheckoutSession | src/modules/checkout/checkout-address-session.service.ts:259-271 | the context of a verified session, or the refusal |
| AddressSession.NormalizePhone | src/modules/address/phone.service.ts:18-30 | an accepted phone is +91 and ten digits |
| AddressSession.NormalizedPhoneIsFixed | src/modules/address/phone.service.ts:18-30 | a normalised phone normalises to itself |
| AddressSession.PhoneAcceptedIff | src/modules/address/phone.service.ts:18-30 | a text is taken as a number if and only if, compacted, it is its ten digits from 6 up, with or without 91, and each of these with or without a plus |
| AddressSession.CompactDrops | src/modules/address/phone.service.ts:19 | compacting drops blanks, brackets, dots and dashes, wherever they are, and nothing else |
| AddressSession.VerifierAcceptsIff | src/modules/checkout/checkout-phone-verifier.ts:109-141 | a proof is taken if and only if the handle is signed for the phone, unconsumed and in time, and the code is the configured one |
| AddressSession.HistoryExplains | src/modules/checkout/checkout-address-session.service.ts:130-307 | after any history the row is what the calls since the last start say |
| AddressSession.CallsAnswerFromHistory | src/modules/checkout/checkout-address-session.service.ts:130-307 | after any history every call is told what the history of answers says, each error with its status and code |
| AddressSession.ConfirmedIsConsumed | src/modules/checkout/checkout-phone-verifier.ts:129 | a handle that confirmed a session is consumed for good |
| AddressSession.ConfirmIff | src/modules/checkout/checkout-address-session.service.ts:178-247 | a confirm succeeds if and only if the session is live, the latest start is unconfirmed and unexpired, fewer than five confirms since were wrong, and handle and code match |
| AddressSession.FiveWrongConfirmsBlock | src/modules/checkout/checkout-address-session.service.ts:186-188 | after five wrong confirms none succeeds until a new start |
| AddressSession.VerifiedWasConfirmed | src/modules/checkout/checkout-address-session.service.ts:198-216 | a verified session had a start followed by a matching confirm in the handle's lifetime, with fewer than five wrong ones between, and keeps the started phone |
| AddressSession.ContextIsLatestPhone | src/modules/checkout/checkout-address-session.service.ts:259-271 | a context is returned only before the session expires and carries the phone of the latest start |
| AddressSession.AttemptsAreBounded | src/modules/checkout/checkout-address-session.service.ts:186-188 | in every reachable state the attempts are from 0 to 5 |
| AddressSession.ExpiredIsAbsorbing | src/modules/checkout/checkout-address-session.service.ts:287-291 | an expired session stays expired and refuses every call |
| AddressLine.LineAcceptedIff | src/modules/checkout/checkout-address-graph.service.ts:45-49 | a line is accepted if and only if, trimmed, it has 1 to 500 characters |
| AddressLine.PunctuationIsAscii | src/modules/checkout/checkout-address-graph.service.ts:111 | the punctuation replaced is that of ASCII but for quotes, angle brackets, question mark and at sign |
| AddressLine.NormalFormIsWords | src/modules/checkout/checkout-address-graph.service.ts:107-114 | for any folding the normal form is the words of the folded line joined by single spaces |
| AddressLine.SameNormalFormIffSameWords | src/modules/checkout/checkout-address-graph.service.ts:107-114 | two lines normalise alike if and only if they have the same words once folded |
| AddressLine.NormalFormIsFixedIff | src/modules/checkout/checkout-address-graph.service.ts:107-114 | a normal form normalises to itself if and only if it has a word, fits the length limit and folding keeps its words |
| AddressBook.ShopperAddresses.PersistAddress | src/modules/checkout/checkout-address-graph.service.ts:285-346 | the address table after a persist, and which row answered |
| AddressBook.ShopperAddresses.SelectSameMerchantAddress | src/modules/checkout/checkout-address-prefill.service.ts:112-128 | the address table after a selection, or not found |
| AddressBook.BookIsItsHistory | src/modules/checkout/checkout-address-graph.service.ts:285-346 | after any run one row per (shopper, pincode, normalised line); its use count is its persists and selections, its quality their maximum, its line and first merchant its creator's, its details the last persist's, its time the last use's, each optional field the last one given |
| AddressBook.SameRowIffSameAddress | src/modules/checkout/checkout-address-graph.service.ts:292-299 | two persists share a row if and only if they are for the same shopper, pincode and normalised line |
| AddressBook.DedupedIffSeenBefore | src/modules/checkout/checkout-address-graph.service.ts:292-346 | a persist reports a duplicate if and only if an earlier one was for the same shopper, pincode and normalised line |
| AddressBook.SelectedIff | src/modules/checkout/checkout-address-prefill.service.ts:115-120 | an address can be selected if and only if it was saved by this shopper and first at this merchant |
| AddressBook.RowsOnlyGrow | src/modules/checkout/checkout-address-graph.service.ts:301-322 | no run changes a row's address or first merchant or lowers its quality or use count |

## Left out

- StableJson: the enumeration order of integer-like object keys and of `undefined` members in `JSON.stringify`; object keys are strings in a list.
- AddressLine: what NFKC and `toLowerCase` do to a line; the two together are any function on strings.
- CheckoutQuote: parsing of the rules' amounts, labels, reasons and badges, and the JSON safe-integer range of stored amounts.
- CheckoutOrders: of the telemetry inside the transactions, everything but whether a payment's events were recorded; field cleaning of customer and address, which is one boolean; `CHECKOUT_MODE_INVALID`, since a mode is one of three.
- CheckoutOrders.CheckoutOrderRow.TransitionOrder: the lookup by id and merchant with its 404, since the row is at hand; the audit row of a conflict is written in the same step.
- CheckoutIdempotency: every database error inside a transaction other than a unique conflict is one outcome that commits nothing.
- RuleVersions: `validateCheckoutRules` is a verdict passed in; version names are the ids.
- CursorPaging: rows inserted or deleted while a client follows the cursor.
- AutomationDispatch: the plans of the individual workflows, which appear as the outcomes cancel, defer, misconfigured, unsent or claim.
- CommunicationLog: audit rows, rendered text and metadata other than the meter's keys; a reservation of the monthly cap is made whatever its check said; `CommunicationRace` has the check.
- CommunicationLog.AutomationLogs.Log: is one step here, so that a callback is one; `CommunicationRace` takes it await by await, with the row's day chosen when the call begins.
- AuthAbuse: `notification_sent_at`, which this code only ever clears; the `catch` path of two concurrent first failures; key normalisation and hashing of scopes.
- LoginThrottle: password hashing, rehashing, and which user or courier is found, all part of the verdict.
- AddressSession: session creation, token signature and lookup; profile names, telemetry and the shadow lookup; a lost update between two overlapping confirms.
- AddressBook: consents, shopper identity, pincode resolution and payload validation; the race of two first persists of one address.
- Serializers, routes, schemas, activation gates, email, SMS, JWT and bcrypt are not part of this model.
