/** What the accounting rows of a checkout order say about it, in every run of its payment and its lifecycle. */
module CheckoutLedger {
  import opened Base
  import opened CheckoutQuote
  import opened CheckoutOrders

  /** A reader of the accounting rows alone. `state` is None once a row does not follow from the rows before it. */
  datatype Books = Books(
    state: Option<OrderState>,
    captured: nat, collected: nat, refunded: nat,     // sums
    captures: nat, collections: nat, moves: nat)      // counts of rows

  /** The money the merchant holds on the order's account. */
  function Held(b: Books): int { b.captured + b.collected - b.refunded }

  function Confirms(state: Option<OrderState>): Option<OrderState> {
    if state == Some(PendingPayment) || state == Some(PendingAdvance) then Some(Confirmed) else None
  }

  function Stops(state: Option<OrderState>): Option<OrderState> {
    if state.Some? && state.value in {Cancelled, Expired, RefundDue} then Some(RefundDue) else None
  }

  function Post(mode: Mode, b: Books, e: Entry): Books {
    match e
    case OrderCreated(_) => b.(state := Some(InitialState(mode)))
    case PaymentIntent(_) => b
    case ConfirmedWithoutPayment(_) => b
    case ConfirmedByPayment(_, _) => b.(state := Confirms(b.state))
    case PaymentCaptured(_, amount, _) => b.(captured := b.captured + amount, captures := b.captures + 1)
    case PaymentRefundDue(amount) => b.(state := Stops(b.state), refunded := b.refunded + amount)
    case Lifecycle(from, to) =>
      b.(state := if b.state == Some(from) && from != to then Some(to) else None, moves := b.moves + 1)
    case CashCollected(amount, _) => b.(collected := b.collected + amount, collections := b.collections + 1)
  }

  function Read(mode: Mode, ledger: seq<Entry>): Books {
    if ledger == [] then Books(None, 0, 0, 0, 0, 0, 0)
    else var n := |ledger| - 1; Post(mode, Read(mode, ledger[..n]), ledger[n])
  }

  lemma ReadAppends(mode: Mode, ledger: seq<Entry>, e: Entry)
    ensures Read(mode, ledger + [e]) == Post(mode, Read(mode, ledger), e)
  {
    assert (ledger + [e])[..|ledger|] == ledger;
  }

  lemma ReadAppendsTwo(mode: Mode, ledger: seq<Entry>, e: Entry, f: Entry)
    ensures Read(mode, ledger + [e, f]) == Post(mode, Post(mode, Read(mode, ledger), e), f)
  {
    var one := ledger + [e];
    ReadAppends(mode, ledger, e);
    ReadAppends(mode, one, f);
    assert one + [f] == ledger + [e, f];
  }

  // ---- the invariant

  predicate IsCaptured(o: Order) { o.payment.Some? && o.payment.value.state == Captured }

  predicate Refunding(o: Order) { o.payment.Some? && o.payment.value.state == ToRefund }

  /** A capture was booked before the order was stopped, or after. */
  predicate PaidInTime(o: Order) { Succeeded in o.recorded }

  predicate PaidLate(o: Order) { CapturedLate in o.recorded }

  predicate Collected(o: Order) { o.codStatus == CodCollected }

  predicate Pending(o: Order) { o.state in {PendingPayment, PendingAdvance} }

  /** How many lifecycle moves are left to an order at most. */
  function Rank(s: OrderState): nat {
    match s
    case PendingPayment => 3
    case PendingAdvance => 3
    case Confirmed => 3
    case Packed => 2
    case Shipped => 1
    case _ => 0
  }

  /** The columns of the order agree with each other and with the recorded events. */
  predicate RowInv(o: Order) {
    && o.total == o.payNow + o.payOnDelivery
    && (o.mode == FullCod ==> o.payNow == 0)
    && (o.payment.Some? <==> o.payNow > 0)
    && (o.payment.Some? ==> o.payment.value.amount == o.payNow
                            && o.payment.value.purpose == if o.mode == PartialCod then Advance else FullPayment)
    && (o.payment.None? ==> o.recorded == {})
    && o.codAmount == o.payOnDelivery
    && (Collected(o) <==> o.state == Delivered && o.payOnDelivery > 0)
    && (o.codStatus == NoCod <==> o.payOnDelivery == 0)
    && (o.codReference.Some? <==> Collected(o))
    && o.advancePaid == (if o.mode == PartialCod && PaidInTime(o) then o.payNow else 0)
    && (Pending(o) ==> o.state == InitialState(o.mode) && !PaidInTime(o))
    && (PaidLate(o) ==> o.state == RefundDue)
    && (!Pending(o) && !Stopped(o) && o.mode != FullCod ==> PaidInTime(o))
  }

  function Captures(o: Order): nat { (if PaidInTime(o) then 1 else 0) + (if PaidLate(o) then 1 else 0) }

  /** The accounting rows add up to the columns. */
  predicate BooksInv(o: Order) {
    var b := Read(o.mode, o.ledger);
    && b.state == Some(o.state)
    && b.captures == Captures(o)
    && b.captured == (if PaidInTime(o) then o.payNow else 0) + (if PaidLate(o) then o.payNow else 0)
    && b.refunded == (if PaidLate(o) then o.payNow else 0)
    && b.collected == (if Collected(o) then o.payOnDelivery else 0)
    && b.collections == (if Collected(o) then 1 else 0)
    && b.moves + Rank(o.state) <= 3
    && |o.timeline| == 1 + b.moves + (if PaidInTime(o) then 1 else 0)
  }

  predicate Inv(o: Order) { RowInv(o) && BooksInv(o) }

  /** The payment's own column tells what has been booked of it. */
  predicate Truthful(o: Order) {
    && (IsCaptured(o) <==> PaidInTime(o))
    && (Refunding(o) <==> PaidLate(o))
  }

  predicate Right(o: Order) { Inv(o) && Truthful(o) }

  lemma CreationKeepsInv(quote: Quote, mode: Mode, now: nat, id: nat, paymentId: nat)
    requires Sound(mode, OptionFor(quote.options, mode))
    ensures Right(NewOrder(quote, mode, now, id, paymentId))
  {
    var o := NewOrder(quote, mode, now, id, paymentId);
    ReadAppendsTwo(mode, [], o.ledger[0], o.ledger[1]);
    assert [] + [o.ledger[0], o.ledger[1]] == o.ledger;
  }

  lemma LateCaptureKeepsInv(o: Order)
    requires Inv(o) && o.payment.Some? && !Settled(o) && !Aborts(o, true) && Stopped(o)
    ensures Inv(Capture(o, true)) && (Truthful(o) ==> Truthful(Capture(o, true)))
  {
    var p := o.payment.value;
    ReadAppendsTwo(o.mode, o.ledger, PaymentCaptured(p.purpose, p.amount, true), PaymentRefundDue(p.amount));
    assert RowInv(Capture(o, true));
  }

  lemma CaptureInTimeKeepsInv(o: Order)
    requires Inv(o) && o.payment.Some? && !Settled(o) && !Aborts(o, true) && !Stopped(o)
    ensures Inv(Capture(o, true)) && (Truthful(o) ==> Truthful(Capture(o, true)))
  {
    var p := o.payment.value;
    ReadAppendsTwo(o.mode, o.ledger, PaymentCaptured(p.purpose, p.amount, false),
      ConfirmedByPayment(p.purpose, o.total));
    assert RowInv(Capture(o, true));
  }

  lemma CaptureKeepsInv(o: Order, success: bool)
    requires Inv(o)
    ensures Inv(Capture(o, success))
    ensures Truthful(o) ==> Truthful(Capture(o, success)) && !(success && Aborts(o, success))
  {
    if success && o.payment.Some? && !Settled(o) && !Aborts(o, true) {
      if Stopped(o) { LateCaptureKeepsInv(o); } else { CaptureInTimeKeepsInv(o); }
    }
  }

  /** What an accepted move writes. */
  ghost predicate Moves(o: Order, next: Order, to: OrderState) {
    && o.state != to && AssertTransition(o.state, to).None?
    && next.state == to && next.payment == o.payment && next.recorded == o.recorded && next.mode == o.mode
    && next.total == o.total && next.payNow == o.payNow && next.payOnDelivery == o.payOnDelivery
    && next.advancePaid == o.advancePaid
    && |next.timeline| == |o.timeline| + 1
    && var collects := to == Delivered && o.payOnDelivery > 0;
    && (collects ==>
      && next.codStatus == CodCollected && next.codAmount == o.payOnDelivery && next.codReference.Some?
      && exists means :: next.ledger == o.ledger + [Lifecycle(o.state, to), CashCollected(o.payOnDelivery, means)])
    && (!collects ==>
      && next.codStatus == o.codStatus && next.codAmount == o.codAmount && next.codReference == o.codReference
      && next.ledger == o.ledger + [Lifecycle(o.state, to)])
  }

  /** A transition either writes no row but an audit row, or is accepted and moves. */
  lemma TransitionMovesOrNot(o: Order, to: OrderState, cod: Option<Collection>, actor: string)
    ensures var next := Transition(o, to, cod, actor);
      if o.state == to || TransitionRefusal(o, to, cod).Some? then next == o.(audit := next.audit)
      else Moves(o, next, to)
  {
    var next := Transition(o, to, cod, actor);
    if o.state != to && TransitionRefusal(o, to, cod).None? {
      if to == Delivered && o.payOnDelivery > 0 {
        assert next.ledger == o.ledger + [Lifecycle(o.state, to), CashCollected(o.payOnDelivery, Means(cod.value))];
      }
    }
  }

  lemma MoveKeepsInv(o: Order, next: Order, to: OrderState)
    requires Inv(o) && Moves(o, next, to) && to !in {PendingPayment, PendingAdvance}
    ensures Inv(next)
  {
    assert RowInv(next);
    ReadAppends(o.mode, o.ledger, Lifecycle(o.state, to));
    if to == Delivered && o.payOnDelivery > 0 {
      var means :| next.ledger == o.ledger + [Lifecycle(o.state, to), CashCollected(o.payOnDelivery, means)];
      ReadAppendsTwo(o.mode, o.ledger, Lifecycle(o.state, to), CashCollected(o.payOnDelivery, means));
    }
  }

  lemma TransitionKeepsInv(o: Order, to: OrderState, cod: Option<Collection>, actor: string)
    requires Inv(o) && to !in {PendingPayment, PendingAdvance}
    ensures Inv(Transition(o, to, cod, actor))
  {
    TransitionMovesOrNot(o, to, cod, actor);
    if o.state != to && TransitionRefusal(o, to, cod).None? { MoveKeepsInv(o, Transition(o, to, cod, actor), to); }
  }

  /** A first initiation that lands on a settled payment. */
  predicate Overwrites(o: Order) { Settled(o) && AttemptStarted !in o.recorded }

  /** A late initiation never touches the books, and keeps the payment truthful exactly when it does not overwrite. */
  lemma LateInitiationKeepsTruthIff(o: Order)
    requires Right(o)
    ensures Inv(InitiateLate(o))
    ensures Truthful(InitiateLate(o)) <==> !Overwrites(o)
  {
  }

  lemma NextKeepsInv(o: Order, step: Step)
    requires Inv(o)
    ensures Inv(Next(o, step))
    ensures Truthful(o) && !(step.PayLate? && Overwrites(o)) ==> Truthful(Next(o, step))
  {
    match step
    case Settle(success) => CaptureKeepsInv(o, success);
    case Move(to, cod, actor) =>
      if to !in {PendingPayment, PendingAdvance} {
        TransitionMovesOrNot(o, to, cod, actor);
        TransitionKeepsInv(o, to, cod, actor);
      }
    case _ =>
  }

  /** No initiation overwrites a settled payment. */
  predicate Timely(o: Order, steps: seq<Step>) {
    steps != [] ==>
      var n := |steps| - 1; Timely(o, steps[..n]) && !(steps[n].PayLate? && Overwrites(Run(o, steps[..n])))
  }

  lemma {:induction false} RunKeepsInv(o: Order, steps: seq<Step>)
    requires Inv(o)
    ensures Inv(Run(o, steps))
    ensures Truthful(o) && Timely(o, steps) ==> Truthful(Run(o, steps))
    decreases |steps|
  {
    if steps != [] {
      var n := |steps| - 1;
      RunKeepsInv(o, steps[..n]);
      NextKeepsInv(Run(o, steps[..n]), steps[n]);
    }
  }

  /** The terms of an order, and its rows, which are only added to. */
  predicate SameTerms(o: Order, r: Order) {
    && r.id == o.id && r.merchantId == o.merchantId && r.mode == o.mode && r.token == o.token
    && r.total == o.total && r.payNow == o.payNow && r.payOnDelivery == o.payOnDelivery
    && r.quoteId == o.quoteId && r.advanceExpiresAt == o.advanceExpiresAt
    && o.ledger <= r.ledger && o.timeline <= r.timeline && o.audit <= r.audit
    && (o.payment.Some? <==> r.payment.Some?)
    && (r.payment.Some? ==> r.payment.value.id == o.payment.value.id)
  }

  lemma NextKeepsTerms(o: Order, step: Step)
    ensures SameTerms(o, Next(o, step))
  {
    if step.Move? { TransitionMovesOrNot(o, step.to, step.cod, step.actor); }
  }

  lemma {:induction false} RunKeepsTerms(o: Order, steps: seq<Step>)
    ensures SameTerms(o, Run(o, steps))
    decreases |steps|
  {
    if steps != [] {
      var n := |steps| - 1;
      RunKeepsTerms(o, steps[..n]);
      NextKeepsTerms(Run(o, steps[..n]), steps[n]);
    }
  }

  // ---- the main results

  /** An order placed from a quote, and what happened to it since. */
  datatype Story = Story(quote: Quote, mode: Mode, now: nat, id: nat, paymentId: nat, steps: seq<Step>) {
    function Start(): Order { NewOrder(quote, mode, now, id, paymentId) }

    function End(): Order { Run(Start(), steps) }

    function Ledger(): Books { Read(mode, End().ledger) }

    predicate Fair() { Sound(mode, OptionFor(quote.options, mode)) }
  }

  lemma StoryKeepsInv(s: Story)
    requires s.Fair()
    ensures Inv(s.End()) && s.End().mode == s.mode && s.Start().ledger <= s.End().ledger
    ensures Timely(s.Start(), s.steps) ==> Truthful(s.End())
    ensures var o := OptionFor(s.quote.options, s.mode);
      s.End().total == o.total && s.End().payNow == o.payNow && s.End().payOnDelivery == o.payOnDelivery
  {
    CreationKeepsInv(s.quote, s.mode, s.now, s.id, s.paymentId);
    RunKeepsInv(s.Start(), s.steps);
    RunKeepsTerms(s.Start(), s.steps);
  }

  /** The accounting rows alone give back the state: each lifecycle row leaves the state that the rows before it
      lead to, at most three are ever written, and the timeline has one line for each of them. */
  lemma LedgerIsAPathToTheState(s: Story)
    requires s.Fair()
    ensures s.Ledger().state == Some(s.End().state)
    ensures s.Ledger().moves + Rank(s.End().state) <= 3
    ensures |s.End().timeline| == 1 + s.Ledger().moves + (if PaidInTime(s.End()) then 1 else 0)
  {
    StoryKeepsInv(s);
  }

  /** In every run, whatever initiations come late: cash is recorded as collected exactly for a delivered order that had
      some to collect, by one row of that amount; a delivered order holds its total; any other holds what was captured
      in time; and a refund is booked for a late capture only, so one capture is all unless the order is refund_due. */
  lemma MoneyIsConserved(s: Story)
    requires s.Fair()
    ensures var o, b, quoted := s.End(), s.Ledger(), OptionFor(s.quote.options, s.mode);
      && (o.codStatus == CodCollected <==> o.state == Delivered && quoted.payOnDelivery > 0)
      && b.collections == (if o.codStatus == CodCollected then 1 else 0)
      && b.collected == (if o.codStatus == CodCollected then quoted.payOnDelivery else 0)
      && b.captured == b.captures * quoted.payNow && b.captures <= 2
      && (b.captures == 2 || b.refunded > 0 ==> o.state == RefundDue && b.refunded == quoted.payNow)
      && (o.state == Delivered ==> Held(b) == quoted.total)
      && (Pending(o) ==> Held(b) == 0)
      && (Stopped(o) ==> Held(b) == if PaidInTime(o) then quoted.payNow else 0)
    ensures Timely(s.Start(), s.steps) ==> s.Ledger().captures <= 1 && (PaidInTime(s.End()) <==> IsCaptured(s.End()))
  {
    StoryKeepsInv(s);
  }

  /** So a stopped order has given the money back unless it was captured before the stop; and then no row says
      that it is due: only a capture after the stop books a refund. */
  lemma StoppingAPaidOrderBooksNoRefund(quote: Quote, mode: Mode, now: nat, id: nat, paymentId: nat,
      stop: OrderState, actor: string)
    requires Sound(mode, OptionFor(quote.options, mode)) && OptionFor(quote.options, mode).payNow > 0
    requires stop in {Cancelled, Expired, RefundDue}
    ensures var s := Story(quote, mode, now, id, paymentId, [Settle(true), Move(stop, None, actor)]);
      s.Fair() && s.End().state == stop && Held(s.Ledger()) == OptionFor(quote.options, mode).payNow &&
        s.Ledger().refunded == 0
  {
    var s := Story(quote, mode, now, id, paymentId, [Settle(true), Move(stop, None, actor)]);
    PaidIsConfirmed(quote, mode, now, id, paymentId);
    RunTwo(s.Start(), s.steps[0], s.steps[1]);
    TransitionMovesOrNot(Capture(s.Start(), true), stop, None, actor);
    StoryKeepsInv(s);
  }

  lemma PaidIsConfirmed(quote: Quote, mode: Mode, now: nat, id: nat, paymentId: nat)
    requires Sound(mode, OptionFor(quote.options, mode)) && OptionFor(quote.options, mode).payNow > 0
    ensures var paid := Capture(NewOrder(quote, mode, now, id, paymentId), true);
      paid.state == Confirmed && paid.recorded == {Succeeded}
  {
  }

  lemma RunTwo(o: Order, a: Step, b: Step)
    ensures Run(o, [a, b]) == Next(Next(o, a), b)
  {
    RunOne(o, a);
    assert [a, b][..1] == [a];
  }

  lemma RunOne(o: Order, step: Step)
    ensures Run(o, [step]) == Next(o, step)
  {
    assert [step][..0] == [];
  }

  lemma {:induction false} RunConcat(o: Order, a: seq<Step>, b: seq<Step>)
    ensures Run(o, a + b) == Run(Run(o, a), b)
    decreases |b|
  {
    if b == [] {
      assert a + b == a;
    } else {
      var n := |b| - 1;
      var whole := a + b;
      RunConcat(o, a, b[..n]);
      assert whole[..|whole| - 1] == a + b[..n] && whole[|whole| - 1] == b[n];
    }
  }

  /** To a delivered order nothing is written any more but the audit of refused moves; a late initiation may still touch
      its payment's column, but no row of the books. */
  lemma {:induction false} DeliveredIsFinal(o: Order, steps: seq<Step>)
    requires Inv(o) && o.state == Delivered
    ensures var r := Run(o, steps); r == o.(audit := r.audit, payment := r.payment, recorded := r.recorded)
    ensures Truthful(o) && Timely(o, steps) ==> Run(o, steps) == o.(audit := Run(o, steps).audit)
    decreases |steps|
  {
    if steps != [] {
      var n := |steps| - 1;
      DeliveredIsFinal(o, steps[..n]);
      RunKeepsInv(o, steps[..n]);
      var before := Run(o, steps[..n]);
      if steps[n].Move? { TransitionMovesOrNot(before, steps[n].to, steps[n].cod, steps[n].actor); }
    }
  }

  /** A stopped order stays stopped, and its timeline ends. It becomes refund_due by a late capture only. */
  lemma {:induction false} StoppedIsForEver(o: Order, steps: seq<Step>)
    requires Inv(o) && Stopped(o)
    ensures var r := Run(o, steps);
      && Stopped(r) && r.timeline == o.timeline && (PaidInTime(r) <==> PaidInTime(o))
      && r.state == (if PaidLate(r) then RefundDue else o.state)
    decreases |steps|
  {
    if steps != [] {
      var n := |steps| - 1;
      StoppedIsForEver(o, steps[..n]);
      RunKeepsInv(o, steps[..n]);
      StoppedStep(Run(o, steps[..n]), steps[n]);
    }
  }

  lemma StoppedStep(o: Order, step: Step)
    requires Inv(o) && Stopped(o)
    ensures var r := Next(o, step);
      && Stopped(r) && r.timeline == o.timeline && (PaidInTime(r) <==> PaidInTime(o)) && (PaidLate(o) ==> PaidLate(r))
      && r.state == (if PaidLate(r) then RefundDue else o.state)
  {
    if step.Move? { TransitionMovesOrNot(o, step.to, step.cod, step.actor); }
  }

  /** When no initiation overwrites, the refund is booked exactly when an unsettled payment is captured late. */
  lemma {:induction false} StoppedStaysStopped(o: Order, steps: seq<Step>)
    requires Right(o) && Stopped(o) && Timely(o, steps)
    ensures var r := Run(o, steps); var late := o.payment.Some? && !Settled(o) && Settle(true) in steps;
      && r.timeline == o.timeline
      && r.state == (if late then RefundDue else o.state)
      && (Refunding(r) <==> Refunding(o) || late)
      && (IsCaptured(r) <==> IsCaptured(o))
    decreases |steps|
  {
    StoppedIsForEver(o, steps);
    RunKeepsInv(o, steps);
    if steps != [] {
      var n := |steps| - 1;
      StoppedStaysStopped(o, steps[..n]);
      LateCaptureStep(o, steps[..n], steps[n]);
      assert steps == steps[..n] + [steps[n]];
    }
  }

  lemma LateCaptureStep(o: Order, steps: seq<Step>, step: Step)
    requires Right(o) && Stopped(o) && Timely(o, steps)
    requires !(step.PayLate? && Overwrites(Run(o, steps)))
    ensures var s := Run(o, steps); var r := Next(s, step);
      Refunding(r) <==> Refunding(s) || (o.payment.Some? && !Settled(s) && step == Settle(true))
  {
    var s := Run(o, steps);
    StoppedIsForEver(o, steps);
    RunKeepsInv(o, steps);
    RunKeepsTerms(o, steps);
    NextKeepsInv(s, step);
    if step.Settle? { CaptureKeepsInv(s, step.success); }
    if step.Move? { TransitionMovesOrNot(s, step.to, step.cod, step.actor); }
  }

  // ---- orders that are never delivered

  /** A collection that is accepted for the order: an accepted means, a reference and the very amount. */
  predicate Settles(o: Order, cod: Collection) { CollectionRefusal(o.payOnDelivery, Some(cod)).None? }

  lemma MovesOn(o: Order, to: OrderState, cod: Option<Collection>, actor: string)
    requires o.state != to && to !in {PendingPayment, PendingAdvance} && TransitionRefusal(o, to, cod).None?
    ensures var r := Next(o, Move(to, cod, actor)); r.state == to && r.payOnDelivery == o.payOnDelivery
  {
    TransitionMovesOrNot(o, to, cod, actor);
  }

  lemma RunThree(o: Order, a: Step, b: Step, c: Step)
    ensures Run(o, [a, b, c]) == Next(Next(Next(o, a), b), c)
  {
    RunTwo(o, a, b);
    assert [a, b, c][..2] == [a, b];
  }

  /** From a confirmed order, packing, shipping and delivering succeed. */
  lemma ConfirmedCanBeDelivered(o: Order, cod: Collection, actor: string)
    requires o.state == Confirmed && (o.payOnDelivery > 0 ==> Settles(o, cod))
    ensures var steps := [Move(Packed, None, actor), Move(Shipped, None, actor), Move(Delivered, Some(cod), actor)];
      Run(o, steps).state == Delivered
  {
    var a, b, c := Move(Packed, None, actor), Move(Shipped, None, actor), Move(Delivered, Some(cod), actor);
    RunThree(o, a, b, c);
    MovesOn(o, Packed, None, actor);
    MovesOn(Next(o, a), Shipped, None, actor);
    MovesOn(Next(Next(o, a), b), Delivered, Some(cod), actor);
  }

  /** An order can be delivered exactly when it is full cash on delivery or asks for something now: a prepaid or partial
      order with nothing to pay now has no payment to capture, and nothing else confirms it. */
  lemma DeliverableIff(quote: Quote, mode: Mode, now: nat, id: nat, paymentId: nat, cod: Collection, actor: string)
    requires Sound(mode, OptionFor(quote.options, mode))
    requires Settles(NewOrder(quote, mode, now, id, paymentId), cod)
    ensures (exists steps :: Run(NewOrder(quote, mode, now, id, paymentId), steps).state == Delivered)
      <==> mode == FullCod || OptionFor(quote.options, mode).payNow > 0
  {
    var o := NewOrder(quote, mode, now, id, paymentId);
    forall steps | Run(o, steps).state == Delivered
      ensures mode == FullCod || o.payNow > 0
    {
      StoryKeepsInv(Story(quote, mode, now, id, paymentId, steps));
    }
    if mode == FullCod {
      ConfirmedCanBeDelivered(o, cod, actor);
    } else if o.payNow > 0 {
      PaidIsConfirmed(quote, mode, now, id, paymentId);
      var steps := PaidCanBeDelivered(o, cod, actor);
    }
  }

  lemma PaidCanBeDelivered(o: Order, cod: Collection, actor: string) returns (steps: seq<Step>)
    requires Capture(o, true).state == Confirmed && Settles(o, cod)
    ensures Run(o, steps).state == Delivered
  {
    var pay := [Settle(true)];
    var rest := [Move(Packed, None, actor), Move(Shipped, None, actor), Move(Delivered, Some(cod), actor)];
    RunOne(o, pay[0]);
    RunKeepsTerms(o, pay);
    ConfirmedCanBeDelivered(Run(o, pay), cod, actor);
    RunConcat(o, pay, rest);
    steps := pay + rest;
  }

  // ---- late initiations

  /** The payment, the other columns and the books agree after every step of the run. */
  predicate AlwaysRight(o: Order, steps: seq<Step>) {
    Right(Run(o, steps)) && (steps != [] ==> AlwaysRight(o, steps[..|steps| - 1]))
  }

  /** A first initiation written over a settled payment is the one thing that makes the payment's column wrong. */
  lemma {:induction false} PaymentAgreesIffTimely(o: Order, steps: seq<Step>)
    requires Right(o)
    ensures AlwaysRight(o, steps) <==> Timely(o, steps)
    decreases |steps|
  {
    if steps != [] {
      var n := |steps| - 1;
      PaymentAgreesIffTimely(o, steps[..n]);
      RunKeepsInv(o, steps);
      if AlwaysRight(o, steps) && steps[n].PayLate? { LateInitiationKeepsTruthIff(Run(o, steps[..n])); }
    }
  }

  /** An order whose payment was captured and that was stopped then: a first initiation written late and a success
      capture it again, and book a refund of one of the two captures. */
  lemma LateInitiationCapturesTwice(o: Order)
    requires Right(o) && IsCaptured(o) && Stopped(o) && AttemptStarted !in o.recorded
    ensures var r := Run(o, [PayLate, Settle(true)]); var b := Read(r.mode, r.ledger);
      && r.state == RefundDue && b.state == Some(RefundDue)
      && b.captures == 2 && b.captured == 2 * o.payNow && b.refunded == o.payNow > 0
  {
    RunTwo(o, PayLate, Settle(true));
    LateInitiationKeepsTruthIff(o);
    CaptureKeepsInv(InitiateLate(o), true);
  }
}
