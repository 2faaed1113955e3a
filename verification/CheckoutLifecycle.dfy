/** Which moves a checkout order accepts (`checkout-admin.service.ts`, `transitionOrder`), said by how far the order has
    come, and what a completion does to its payment (`checkout-payment.service.ts`), said by what happened before. */
module CheckoutLifecycle {
  import opened Base
  import opened CheckoutQuote
  import opened CheckoutOrders
  import L = CheckoutLedger
  import Text

  // ---- the states by name

  /** How a state is stored and shown. */
  function StateName(s: OrderState): string {
    match s
    case PendingPayment => "pending_payment"
    case PendingAdvance => "pending_advance"
    case Confirmed => "confirmed"
    case Packed => "packed"
    case Shipped => "shipped"
    case Delivered => "delivered"
    case Cancelled => "cancelled"
    case Expired => "expired"
    case RefundDue => "refund_due"
  }

  predicate IsPending(s: OrderState) { s == PendingPayment || s == PendingAdvance }

  predicate IsStop(s: OrderState) { s == Cancelled || s == Expired || s == RefundDue }

  /** A move can be asked for exactly by the name of its state, in any case and with blanks around; only the two pending
      states cannot be asked for. Any other text is answered with 400. */
  lemma StatesParseBack(value: string, s: OrderState)
    ensures ParseState(value) == Some(s) <==> !IsPending(s) && Text.ToLower(Text.Trim(value)) == StateName(s)
    ensures Http(StateInvalid) == HttpError(400, "CHECKOUT_ORDER_STATE_INVALID")
  {
    var name := Text.ToLower(Text.Trim(value));
    NamesDiffer(s);
    if ParseState(value).Some? { NamesDiffer(ParseState(value).value); }
  }

  lemma NamesDiffer(s: OrderState)
    ensures forall t :: StateName(t) == StateName(s) ==> t == s
  {
    assert StateName(Confirmed)[1] == 'o' && StateName(Cancelled)[1] == 'a';
    assert StateName(PendingPayment)[8] == 'p' && StateName(PendingAdvance)[8] == 'a';
    assert StateName(Shipped)[0] == 's' && StateName(Expired)[0] == 'e';
  }

  // ---- which moves are accepted

  /** One step further on the way to the buyer: a move must come right after the last one. */
  predicate OneStepOn(from: OrderState, to: OrderState) {
    to in {Packed, Shipped, Delivered} && !IsPending(from) && L.Rank(from) == L.Rank(to) + 1
  }

  /** A stop of an order that is not delivered and not stopped; it expires only until it is packed. */
  predicate Stops(from: OrderState, to: OrderState) {
    IsStop(to) && !IsStop(from) && from != Delivered && (to == Expired ==> L.Rank(from) == 3)
  }

  predicate KnownMeans(c: Collection) { Text.ToLower(Text.Trim(c.means)) in {"cash", "upi", "card", "other"} }

  /** The buyer's cash: a known means, a reference, and the very amount that is due. */
  predicate Pays(due: nat, cod: Option<Collection>) {
    && cod.Some?
    && KnownMeans(cod.value)
    && Text.Trim(cod.value.reference) != ""
    && cod.value.amount == Some(due)
  }

  /** A move of any order, whatever its history, is accepted exactly if it is the next step on the way, or a stop
      in time, and pays what is due on delivery. */
  lemma MoveAcceptedIff(o: Order, to: OrderState, cod: Option<Collection>, actor: string)
    requires to != o.state && !IsPending(to)
    ensures Next(o, Move(to, cod, actor)).state == to <==>
      (OneStepOn(o.state, to) && (to == Delivered && o.payOnDelivery > 0 ==> Pays(o.payOnDelivery, cod)))
      || Stops(o.state, to)
    ensures Next(o, Move(to, cod, actor)).state == to <==> TransitionRefusal(o, to, cod).None?
    ensures Next(o, Move(to, cod, actor)).state in {o.state, to}
  {
    L.TransitionMovesOrNot(o, to, cod, actor);
  }

  /** The status and code that a refused move is answered with. */
  function Answer(o: Order, to: OrderState, cod: Option<Collection>): Option<HttpError> {
    var refusal := TransitionRefusal(o, to, cod);
    if refusal.None? then None else Some(Http(refusal.value))
  }

  /** A move that is neither the next step nor a stop in time is answered for where the order stands. */
  lemma MisplacedMoveIsAnswered(o: Order, to: OrderState, cod: Option<Collection>)
    requires to != o.state && !IsPending(to) && !OneStepOn(o.state, to) && !Stops(o.state, to)
    ensures Answer(o, to, cod) == Some(HttpError(409,
      if IsStop(o.state) then "CHECKOUT_ORDER_TERMINAL_STATE"
      else if IsPending(o.state) && to != Confirmed then "CHECKOUT_ORDER_PAYMENT_NOT_CONFIRMED"
      else if o.state == Delivered && to == Cancelled then "CHECKOUT_DELIVERED_CANCEL_UNSUPPORTED"
      else "CHECKOUT_ORDER_TRANSITION_INVALID"))
  {
    var refusal := AssertTransition(o.state, to);
    assert refusal.Some?;
    assert TransitionRefusal(o, to, cod) == refusal;
  }

  /** What is wrong with a collection, first thing first. */
  function Fault(cod: Option<Collection>): Refusal {
    if cod.None? then CollectionRequired
    else if !KnownMeans(cod.value) then CollectionMethodInvalid
    else if Text.Trim(cod.value.reference) == "" then CollectionReferenceRequired
    else if cod.value.amount.None? then CollectionAmountInvalid
    else CollectionAmountMismatch
  }

  /** A delivery that is next but does not pay is refused for the first thing that is wrong with its collection. */
  lemma UnpaidDeliveryIsRefused(o: Order, cod: Option<Collection>)
    requires o.state == Shipped && o.payOnDelivery > 0 && !Pays(o.payOnDelivery, cod)
    ensures TransitionRefusal(o, Delivered, cod) == Some(Fault(cod))
  {
    assert cod.Some? ==> (KnownMeans(cod.value) <==> Means(cod.value) in MEANS);
  }

  /** A missing or unreadable collection is the caller's mistake; a wrong amount is a conflict, and audited. */
  lemma FaultIsAnswered(cod: Option<Collection>)
    ensures Http(Fault(cod)) == HttpError(if Fault(cod) == CollectionAmountMismatch then 409 else 400,
      match Fault(cod)
      case CollectionRequired => "CHECKOUT_COD_COLLECTION_REQUIRED"
      case CollectionMethodInvalid => "CHECKOUT_COD_COLLECTION_METHOD_INVALID"
      case CollectionReferenceRequired => "CHECKOUT_COD_COLLECTION_REFERENCE_REQUIRED"
      case CollectionAmountInvalid => "INVALID_MONEY_MINOR"
      case _ => "CHECKOUT_COD_COLLECTION_AMOUNT_MISMATCH")
  {
  }

  /** Who moved the order where is on its timeline and in its audit, and so is who took the cash; a refused move changes
      nothing but the audit, and that only when it is answered with 409. */
  lemma MoveIsRecorded(o: Order, to: OrderState, cod: Option<Collection>, actor: string)
    requires to != o.state && !IsPending(to)
    ensures var r := Next(o, Move(to, cod, actor)); var cash := to == Delivered && o.payOnDelivery > 0;
      r.state == to ==>
        && r.timeline == o.timeline + [Moved(to, actor)]
        && r.audit == o.audit + [Transitioned(o.state, to, actor)]
             + (if cash then [CollectionRecorded(o.payOnDelivery, actor)] else [])
        && (cash ==>
              && cod.Some? && r.codReference == Some(Text.Trim(cod.value.reference))
              && CashCollected(o.payOnDelivery, Text.ToLower(Text.Trim(cod.value.means))) in r.ledger)
    ensures var r, answer := Next(o, Move(to, cod, actor)), Answer(o, to, cod);
      r.state != to ==>
        && answer.Some?
        && r == o.(audit := r.audit)
        && (answer.value.status != 409 ==> r.audit == o.audit)
        && (answer.value.status == 409 ==>
              |r.audit| == |o.audit| + 1 && r.audit[..|o.audit|] == o.audit
              && r.audit[|o.audit|].TransitionRejected? && r.audit[|o.audit|].from == o.state
              && r.audit[|o.audit|].to == to && r.audit[|o.audit|].actor == actor
              && Http(r.audit[|o.audit|].refusal) == answer.value)
  {
    var refusal := TransitionRefusal(o, to, cod);
    L.TransitionMovesOrNot(o, to, cod, actor);
    if refusal.Some? { ConflictIff409(refusal.value); }
  }

  // ---- the payment

  /** What the payment's column tells of the events recorded for it: none in created, the attempt in initiated, the
      failure in failed. */
  predicate TellsEvents(o: Order) {
    o.payment.Some? ==>
      && (o.payment.value.state == Created <==> o.recorded == {})
      && (o.payment.value.state == Initiated ==> AttemptStarted in o.recorded)
      && (o.payment.value.state == Failed ==> CaptureFailed in o.recorded)
  }

  lemma NextTellsEvents(o: Order, step: Step)
    requires TellsEvents(o)
    ensures TellsEvents(Next(o, step))
  {
    if step.Move? { L.TransitionMovesOrNot(o, step.to, step.cod, step.actor); }
  }

  lemma {:induction false} RunTellsEvents(o: Order, steps: seq<Step>)
    requires TellsEvents(o)
    ensures TellsEvents(Run(o, steps))
    decreases |steps|
  {
    if steps != [] {
      RunTellsEvents(o, steps[..|steps| - 1]);
      NextTellsEvents(Run(o, steps[..|steps| - 1]), steps[|steps| - 1]);
    }
  }

  /** In every run the payment's column and the events recorded for it agree so far, late initiations included; and
      the quote's terms, with the half hour that a partial order has for its advance, stand to the end, below the
      rows of the placement. */
  lemma PlacementStands(s: L.Story)
    ensures var o, quoted := s.End(), OptionFor(s.quote.options, s.mode);
      && TellsEvents(o)
      && s.Start().state ==
           (match s.mode case Prepaid => PendingPayment case PartialCod => PendingAdvance case FullCod => Confirmed)
      && o.id == s.id && o.merchantId == s.quote.merchantId && o.quoteId == s.quote.id && o.mode == s.mode
      && o.token == Token(s.id, s.quote.merchantId, s.now)
      && o.advanceExpiresAt == (if s.mode == PartialCod then Some(s.now + 1_800_000) else None)
      && (o.payment.Some? <==> quoted.payNow > 0)
      && (o.payment.Some? ==> o.payment.value.id == s.paymentId)
      && |o.timeline| >= 1 && o.timeline[0] == Placed(s.mode)
      && |o.ledger| >= 2 && o.ledger[0] == OrderCreated(quoted.total)
      && o.ledger[1] ==
           if quoted.payNow > 0 then PaymentIntent(quoted.payNow) else ConfirmedWithoutPayment(quoted.total)
  {
    RunTellsEvents(s.Start(), s.steps);
    L.RunKeepsTerms(s.Start(), s.steps);
  }

  /** An initiation marks a created payment as initiated and records the attempt; one that read it created and
      writes late does so whatever has become of the payment, unless the attempt is recorded; no other column
      changes. */
  lemma InitiationWrites(o: Order, late: bool)
    ensures var r := Next(o, if late then PayLate else Pay);
      var writes :=
        && o.payment.Some? && AttemptStarted !in o.recorded && (late || o.payment.value.state == Created);
      if writes then
        && r.payment == Some(Payment(o.payment.value.id, o.payment.value.amount, o.payment.value.purpose, Initiated))
        && r.recorded == o.recorded + {AttemptStarted} && r == o.(payment := r.payment, recorded := r.recorded)
      else r == o
  {
  }

  /** A failed completion of an open payment marks it failed and records that, and changes nothing else; the second
      one of a payment changes nothing at all. */
  lemma FailureWrites(o: Order)
    requires o.payment.Some? && !Settled(o)
    ensures var r := Next(o, Settle(false)); var p := o.payment.value;
      if CaptureFailed in o.recorded then r == o
      else
        && r.payment == Some(Payment(p.id, p.amount, p.purpose, Failed))
        && r == o.(payment := r.payment, recorded := o.recorded + {CaptureFailed})
  {
  }

  /** A first success of an open payment confirms the order and books the capture; for a stopped order it marks the
      payment and the order as due for a refund and books both the capture and the refund. */
  lemma SuccessWrites(o: Order)
    requires o.payment.Some? && !Settled(o) && (if IsStop(o.state) then CapturedLate else Succeeded) !in o.recorded
    ensures var r := Next(o, Settle(true)); var p := o.payment.value;
      if IsStop(o.state) then
        && r.state == RefundDue && r.payment == Some(Payment(p.id, p.amount, p.purpose, ToRefund))
        && r.timeline == o.timeline && r.advancePaid == o.advancePaid
        && r.ledger == o.ledger + [PaymentCaptured(p.purpose, p.amount, true), PaymentRefundDue(p.amount)]
      else
        && r.state == Confirmed && r.payment == Some(Payment(p.id, p.amount, p.purpose, Captured))
        && r.timeline == o.timeline + [Paid(p.purpose)]
        && r.advancePaid == (if p.purpose == Advance then p.amount else o.advancePaid)
        && r.ledger == o.ledger + [PaymentCaptured(p.purpose, p.amount, false), ConfirmedByPayment(p.purpose, o.total)]
  {
  }
}
