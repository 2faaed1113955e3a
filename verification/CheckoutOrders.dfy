/** One checkout order: its creation from a quote (`checkout-order.service.ts`), its payment
    (`checkout-payment.service.ts`), its lifecycle and its accounting (`checkout-admin.service.ts`).
    Each transaction is one step. */
module CheckoutOrders {
  import opened Base
  import opened CheckoutQuote
  import Text

  datatype OrderState =
    | PendingPayment | PendingAdvance | Confirmed | Packed | Shipped | Delivered | Cancelled | Expired | RefundDue

  datatype Purpose = Advance | FullPayment

  datatype PaymentState = Created | Initiated | Failed | Captured | ToRefund

  datatype Payment = Payment(id: nat, amount: nat, purpose: Purpose, state: PaymentState)

  /** The telemetry events of a payment. Their keys name the payment, so each is inserted once: a transaction that
      inserts one again hits the unique key and rolls back as a whole. */
  datatype PaymentEvent = AttemptStarted | Succeeded | CaptureFailed | CapturedLate

  datatype CodStatus = NoCod | CodPending | CodCollected

  /** The signed order token. The stored hash of it is taken as collision free and modelled by the token itself. */
  datatype Token = Token(orderId: nat, merchantId: string, issuedAt: nat)

  /** The accounting events, with the metadata that tells them apart. */
  datatype Entry =
    | OrderCreated(amount: nat)
    | PaymentIntent(amount: nat)
    | ConfirmedWithoutPayment(amount: nat)
    | ConfirmedByPayment(purpose: Purpose, amount: nat)
    | PaymentCaptured(purpose: Purpose, amount: nat, late: bool)
    | PaymentRefundDue(amount: nat)
    | Lifecycle(from: OrderState, to: OrderState)
    | CashCollected(amount: nat, means: string)

  datatype Line = Placed(mode: Mode) | Moved(to: OrderState, actor: string) | Paid(purpose: Purpose)

  datatype Audit =
    | Transitioned(from: OrderState, to: OrderState, actor: string)
    | CollectionRecorded(amount: nat, actor: string)
    | TransitionRejected(from: OrderState, to: OrderState, refusal: Refusal, actor: string)

  datatype Order = Order(
    id: nat, merchantId: string, quoteId: string, mode: Mode, state: OrderState,
    total: nat, payNow: nat, payOnDelivery: nat, advancePaid: nat,
    codStatus: CodStatus, codAmount: nat, codReference: Option<string>,
    token: Token, advanceExpiresAt: Option<nat>,
    payment: Option<Payment>, recorded: set<PaymentEvent>,
    timeline: seq<Line>, ledger: seq<Entry>, audit: seq<Audit>)

  datatype Refusal =
    | QuoteExpired | ModeUnavailable | CustomerInvalid
    | StateInvalid
    | PaymentNotConfirmed | TerminalState | DeliveredCancelUnsupported | TransitionInvalid
    | CollectionRequired | CollectionMethodInvalid | CollectionReferenceRequired | CollectionAmountInvalid
    | CollectionAmountMismatch

  function Http(r: Refusal): HttpError {
    match r
    case QuoteExpired => HttpError(422, "CHECKOUT_QUOTE_EXPIRED")
    case ModeUnavailable => HttpError(400, "CHECKOUT_MODE_UNAVAILABLE")
    case CustomerInvalid => HttpError(400, "CHECKOUT_CUSTOMER_INVALID")
    case StateInvalid => HttpError(400, "CHECKOUT_ORDER_STATE_INVALID")
    case PaymentNotConfirmed => HttpError(409, "CHECKOUT_ORDER_PAYMENT_NOT_CONFIRMED")
    case TerminalState => HttpError(409, "CHECKOUT_ORDER_TERMINAL_STATE")
    case DeliveredCancelUnsupported => HttpError(409, "CHECKOUT_DELIVERED_CANCEL_UNSUPPORTED")
    case TransitionInvalid => HttpError(409, "CHECKOUT_ORDER_TRANSITION_INVALID")
    case CollectionRequired => HttpError(400, "CHECKOUT_COD_COLLECTION_REQUIRED")
    case CollectionMethodInvalid => HttpError(400, "CHECKOUT_COD_COLLECTION_METHOD_INVALID")
    case CollectionReferenceRequired => HttpError(400, "CHECKOUT_COD_COLLECTION_REFERENCE_REQUIRED")
    case CollectionAmountInvalid => HttpError(400, "INVALID_MONEY_MINOR")
    case CollectionAmountMismatch => HttpError(409, "CHECKOUT_COD_COLLECTION_AMOUNT_MISMATCH")
  }

  /** The refusals sent as 409, which leave an audit row behind. */
  predicate Conflict(r: Refusal) {
    r in {PaymentNotConfirmed, TerminalState, DeliveredCancelUnsupported, TransitionInvalid, CollectionAmountMismatch}
  }

  /** These are the refusals with status 409. */
  lemma ConflictIff409(r: Refusal)
    ensures Conflict(r) <==> Http(r).status == 409
  {
  }

  // ---- creation

  datatype Quote = Quote(id: string, merchantId: string, expiresAt: nat, options: Options)

  const ADVANCE_TTL_MS: nat := 1_800_000

  function InitialState(mode: Mode): OrderState {
    match mode
    case Prepaid => PendingPayment
    case PartialCod => PendingAdvance
    case FullCod => Confirmed
  }

  function CreateRefusal(quote: Quote, mode: Mode, customerValid: bool, now: nat): Option<Refusal> {
    if quote.expiresAt <= now then Some(QuoteExpired)
    else if !OptionFor(quote.options, mode).available then Some(ModeUnavailable)
    else if !customerValid then Some(CustomerInvalid)
    else None
  }

  /** The rows of `createOrderFromQuote`: the order, its timeline and events, and a payment if something is due now. */
  function NewOrder(quote: Quote, mode: Mode, now: nat, id: nat, paymentId: nat): Order {
    var o := OptionFor(quote.options, mode);
    var payment := Payment(paymentId, o.payNow, if mode == PartialCod then Advance else FullPayment, Created);
    Order(id, quote.merchantId, quote.id, mode, InitialState(mode), o.total, o.payNow, o.payOnDelivery, 0,
          if o.payOnDelivery > 0 then CodPending else NoCod, o.payOnDelivery, None,
          Token(id, quote.merchantId, now), if mode == PartialCod then Some(now + ADVANCE_TTL_MS) else None,
          if o.payNow > 0 then Some(payment) else None, {},
          [Placed(mode)],
          [OrderCreated(o.total), if o.payNow > 0 then PaymentIntent(o.payNow) else ConfirmedWithoutPayment(o.total)],
          [])
  }

  // ---- the payment

  predicate Settled(o: Order) { o.payment.Some? && o.payment.value.state in {Captured, ToRefund} }

  /** The write of `initiatePayment`, which comes some time after the read that found the payment created and does not
      look at the payment again. */
  function InitiateLate(o: Order): Order {
    if o.payment.None? || AttemptStarted in o.recorded then o
    else o.(payment := Some(o.payment.value.(state := Initiated)), recorded := o.recorded + {AttemptStarted})
  }

  /** The read and the write with nothing in between. */
  function Initiate(o: Order): Order {
    if o.payment.Some? && o.payment.value.state == Created then InitiateLate(o) else o
  }

  predicate Stopped(o: Order) { o.state in {Cancelled, Expired, RefundDue} }

  /** The event that a completion inserts. */
  function CompletionEvent(o: Order, success: bool): PaymentEvent {
    if !success then CaptureFailed else if Stopped(o) then CapturedLate else Succeeded
  }

  /** The completion inserts an event a second time and rolls back. */
  predicate Aborts(o: Order, success: bool) {
    o.payment.Some? && !Settled(o) && CompletionEvent(o, success) in o.recorded
  }

  /** `captureInTransaction` on the order's payment. */
  function Capture(o: Order, success: bool): Order {
    if o.payment.None? || Settled(o) || Aborts(o, success) then o
    else
      var p := o.payment.value;
      var r := o.(recorded := o.recorded + {CompletionEvent(o, success)});
      if !success then r.(payment := Some(p.(state := Failed)))
      else if Stopped(o) then
        r.(payment := Some(p.(state := ToRefund)), state := RefundDue,
           ledger := o.ledger + [PaymentCaptured(p.purpose, p.amount, true), PaymentRefundDue(p.amount)])
      else
        r.(payment := Some(p.(state := Captured)), state := Confirmed,
           advancePaid := if p.purpose == Advance then p.amount else o.advancePaid,
           timeline := o.timeline + [Paid(p.purpose)],
           ledger := o.ledger + [PaymentCaptured(p.purpose, p.amount, false), ConfirmedByPayment(p.purpose, o.total)])
  }

  // ---- the lifecycle

  function AssertTransition(from: OrderState, to: OrderState): Option<Refusal> {
    if from == to then None
    else if from in {PendingPayment, PendingAdvance} && to in {Packed, Shipped, Delivered} then
      Some(PaymentNotConfirmed)
    else if from in {Cancelled, Expired, RefundDue} then Some(TerminalState)
    else if from == Delivered && to == Cancelled then Some(DeliveredCancelUnsupported)
    else if to == Cancelled && from in {Confirmed, Packed, Shipped, PendingPayment, PendingAdvance} then None
    else if to == Expired && from in {PendingPayment, PendingAdvance, Confirmed} then None
    else if to == RefundDue && from != Delivered then None
    else if from == Confirmed && to == Packed then None
    else if from == Packed && to == Shipped then None
    else if from == Shipped && to == Delivered then None
    else Some(TransitionInvalid)
  }

  /** `amount` is None when it does not parse as minor units. `means` is the source's `method`. */
  datatype Collection = Collection(means: string, reference: string, amount: Option<nat>)

  const MEANS := {"cash", "upi", "card", "other"}

  function Means(c: Collection): string { Text.ToLower(Text.Trim(c.means)) }

  function CollectionRefusal(payOnDelivery: nat, cod: Option<Collection>): Option<Refusal> {
    if cod.None? then Some(CollectionRequired)
    else if Means(cod.value) !in MEANS then Some(CollectionMethodInvalid)
    else if Text.Trim(cod.value.reference) == "" then Some(CollectionReferenceRequired)
    else if cod.value.amount.None? then Some(CollectionAmountInvalid)
    else if cod.value.amount.value != payOnDelivery then Some(CollectionAmountMismatch)
    else None
  }

  function TransitionRefusal(o: Order, to: OrderState, cod: Option<Collection>): Option<Refusal> {
    var refusal := AssertTransition(o.state, to);
    if refusal.Some? then refusal
    else if to == Delivered && o.payOnDelivery > 0 then CollectionRefusal(o.payOnDelivery, cod)
    else None
  }

  /** `transitionOrder` on a found order. A repeat of the current state does nothing; a conflict leaves an audit row. */
  function Transition(o: Order, to: OrderState, cod: Option<Collection>, actor: string): Order {
    if o.state == to then o
    else
      var refusal := TransitionRefusal(o, to, cod);
      if refusal.Some? then
        if Conflict(refusal.value) then o.(audit := o.audit + [TransitionRejected(o.state, to, refusal.value, actor)])
        else o
      else
        var moved := o.(
          state := to,
          timeline := o.timeline + [Moved(to, actor)],
          ledger := o.ledger + [Lifecycle(o.state, to)],
          audit := o.audit + [Transitioned(o.state, to, actor)]);
        if to == Delivered && o.payOnDelivery > 0 && cod.Some? then
          moved.(codStatus := CodCollected, codAmount := o.payOnDelivery,
                 codReference := Some(Text.Trim(cod.value.reference)),
                 ledger := moved.ledger + [CashCollected(o.payOnDelivery, Means(cod.value))],
                 audit := moved.audit + [CollectionRecorded(o.payOnDelivery, actor)])
        else moved
  }

  datatype Step =
    | Pay                                  // the buyer initiates the payment
    | PayLate                              // the same, the write coming long after the read
    | Settle(success: bool)                // the gateway completes it
    | Move(to: OrderState, cod: Option<Collection>, actor: string)

  function Next(o: Order, step: Step): Order {
    match step
    case Pay => Initiate(o)
    case PayLate => InitiateLate(o)
    case Settle(success) => Capture(o, success)
    case Move(to, cod, actor) => if to in {PendingPayment, PendingAdvance} then o else Transition(o, to, cod, actor)
  }

  function Run(o: Order, steps: seq<Step>): Order {
    if steps == [] then o else var n := |steps| - 1; Next(Run(o, steps[..n]), steps[n])
  }

  // ---- the services, row by row

  function ParseState(value: string): Option<OrderState> {
    var name := Text.ToLower(Text.Trim(value));
    if name == "confirmed" then Some(Confirmed)
    else if name == "packed" then Some(Packed)
    else if name == "shipped" then Some(Shipped)
    else if name == "delivered" then Some(Delivered)
    else if name == "cancelled" then Some(Cancelled)
    else if name == "expired" then Some(Expired)
    else if name == "refund_due" then Some(RefundDue)
    else None
  }

  class CheckoutOrderRow {
    var order: Order

    constructor Load(stored: Order)
      ensures order == stored
    {
      order := stored;
    }

    constructor CreateFromQuote(quote: Quote, mode: Mode, now: nat, id: nat, paymentId: nat)
      ensures order == NewOrder(quote, mode, now, id, paymentId)
    {
      var selected := OptionFor(quote.options, mode);
      var payOnDelivery := selected.payOnDelivery;
      var row := Order(id, quote.merchantId, quote.id, mode, InitialState(mode), selected.total, selected.payNow,
                       payOnDelivery, 0,
                       if payOnDelivery > 0 then CodPending else NoCod, payOnDelivery, None,
                       Token(id, quote.merchantId, now),
                       if mode == PartialCod then Some(now + ADVANCE_TTL_MS) else None,
                       None, {}, [], [], []);
      row := row.(timeline := row.timeline + [Placed(mode)]);
      row := row.(ledger := row.ledger + [OrderCreated(selected.total)]);
      if selected.payNow > 0 {
        var purpose := if mode == PartialCod then Advance else FullPayment;
        row := row.(payment := Some(Payment(paymentId, selected.payNow, purpose, Created)));
        row := row.(ledger := row.ledger + [PaymentIntent(selected.payNow)]);
      } else {
        row := row.(ledger := row.ledger + [ConfirmedWithoutPayment(selected.total)]);
      }
      order := row;
    }

    /** The first read of `initiatePayment`. */
    method FindCreated() returns (created: bool)
      ensures created <==> order.payment.Some? && order.payment.value.state == Created
    {
      created := order.payment.Some? && order.payment.value.state == Created;
    }

    /** The transaction of `initiatePayment`, any time after `FindCreated` said yes. */
    method WriteInitiated() returns (committed: bool)
      modifies this
      ensures order == InitiateLate(old(order))
      ensures committed <==> old(order).payment.Some? && AttemptStarted !in old(order).recorded
    {
      committed := false;
      if order.payment.None? { return; }
      var before := order;
      order := order.(payment := Some(order.payment.value.(state := Initiated)));
      if AttemptStarted in order.recorded {
        order := before;
        return;
      }
      order := order.(recorded := order.recorded + {AttemptStarted});
      committed := true;
    }

    method InitiatePayment()
      modifies this
      ensures order == Initiate(old(order))
    {
      var created := FindCreated();
      if created {
        var _ := WriteInitiated();
      }
    }

    /** The rows of the transaction in the order of the source; the event comes last and takes them back if it is
        there already. */
    method CaptureInTransaction(success: bool) returns (alreadyCaptured: bool, aborted: bool)
      modifies this
      ensures order == Capture(old(order), success)
      ensures alreadyCaptured <==> Settled(old(order))
      ensures aborted <==> Aborts(old(order), success)
    {
      alreadyCaptured, aborted := false, false;
      if order.payment.None? { return; }
      var p := order.payment.value;
      if p.state == Captured || p.state == ToRefund { return true, false; }
      var before := order;
      if !success {
        order := order.(payment := Some(p.(state := Failed)));
        aborted := Record(before, CaptureFailed);
        return;
      }
      if order.state in {Cancelled, Expired, RefundDue} {
        order := order.(payment := Some(p.(state := ToRefund)));
        order := order.(state := RefundDue);
        order := order.(ledger := order.ledger + [PaymentCaptured(p.purpose, p.amount, true)]);
        order := order.(ledger := order.ledger + [PaymentRefundDue(p.amount)]);
        aborted := Record(before, CapturedLate);
        return;
      }
      order := order.(payment := Some(p.(state := Captured)));
      order := order.(state := Confirmed, advancePaid := if p.purpose == Advance then p.amount else order.advancePaid);
      order := order.(timeline := order.timeline + [Paid(p.purpose)]);
      order := order.(ledger := order.ledger + [PaymentCaptured(p.purpose, p.amount, false)]);
      order := order.(ledger := order.ledger + [ConfirmedByPayment(p.purpose, order.total)]);
      aborted := Record(before, Succeeded);
    }

    /** Inserts the event, or fails on its unique key and rolls the order back to `before`. */
    method Record(before: Order, event: PaymentEvent) returns (aborted: bool)
      requires order.recorded == before.recorded
      modifies this
      ensures aborted <==> event in before.recorded
      ensures order == if aborted then before else old(order).(recorded := before.recorded + {event})
    {
      aborted := event in order.recorded;
      order := if aborted then before else order.(recorded := order.recorded + {event});
    }

    /** `idempotent` says that the order stood in the asked state already. */
    method TransitionOrder(value: string, cod: Option<Collection>, actor: string)
      returns (refusal: Option<Refusal>, idempotent: bool)
      modifies this
      ensures ParseState(value).None? ==> refusal == Some(StateInvalid) && order == old(order) && !idempotent
      ensures ParseState(value).Some? ==>
        var to := ParseState(value).value;
        && order == Transition(old(order), to, cod, actor)
        && idempotent == (old(order).state == to)
        && refusal == if idempotent then None else TransitionRefusal(old(order), to, cod)
    {
      refusal, idempotent := None, false;
      var parsed := ParseState(value);
      if parsed.None? {
        refusal := Some(StateInvalid);
        return;
      }
      var to := parsed.value;
      if order.state == to {
        idempotent := true;
        return;
      }
      var from := order.state;
      refusal := AssertTransition(from, to);
      var collects := to == Delivered && order.payOnDelivery > 0;
      if refusal.None? && collects {
        refusal := CollectionRefusal(order.payOnDelivery, cod);
      }
      if refusal.Some? {
        if Conflict(refusal.value) {
          order := order.(audit := order.audit + [TransitionRejected(from, to, refusal.value, actor)]);
        }
        return;
      }
      order := order.(state := to);
      if collects {
        order := order.(codStatus := CodCollected, codAmount := cod.value.amount.value,
                        codReference := Some(Text.Trim(cod.value.reference)));
      }
      order := order.(timeline := order.timeline + [Moved(to, actor)]);
      order := order.(ledger := order.ledger + [Lifecycle(from, to)]);
      order := order.(audit := order.audit + [Transitioned(from, to, actor)]);
      if collects {
        order := order.(ledger := order.ledger + [CashCollected(cod.value.amount.value, Means(cod.value))]);
        order := order.(audit := order.audit + [CollectionRecorded(cod.value.amount.value, actor)]);
      }
    }
  }
}
