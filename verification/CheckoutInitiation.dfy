/** Initiations in flight beside one checkout order (`checkout-payment.service.ts`, `initiatePayment`): each has read
    the payment as created, outside any transaction, and may write any time later. */
module CheckoutInitiation {
  import opened Base
  import opened CheckoutQuote
  import opened CheckoutOrders
  import opened CheckoutLedger

  /** `pending` initiations have found the payment created and have not written yet. */
  datatype Desk = Desk(order: Order, pending: nat)

  datatype Act =
    | Look                  // an initiation reads the payment
    | Write                 // one of the pending ones writes
    | Other(step: Step)     // anything else that happens to the order

  predicate IsCreated(o: Order) { o.payment.Some? && o.payment.value.state == Created }

  function Do(d: Desk, act: Act): Desk {
    match act
    case Look => if IsCreated(d.order) then d.(pending := d.pending + 1) else d
    case Write => if d.pending > 0 then Desk(InitiateLate(d.order), d.pending - 1) else d
    case Other(step) => if step.PayLate? then d else d.(order := Next(d.order, step))
  }

  function RunDesk(d: Desk, acts: seq<Act>): Desk {
    if acts == [] then d else var n := |acts| - 1; Do(RunDesk(d, acts[..n]), acts[n])
  }

  lemma DoKeepsInv(d: Desk, act: Act)
    requires Inv(d.order)
    ensures Inv(Do(d, act).order) && Do(d, act).order.mode == d.order.mode
  {
    match act
    case Look =>
    case Write =>
      NextKeepsInv(d.order, PayLate);
      NextKeepsTerms(d.order, PayLate);
    case Other(step) =>
      NextKeepsInv(d.order, step);
      NextKeepsTerms(d.order, step);
  }

  lemma {:induction false} RunKeepsInv(d: Desk, acts: seq<Act>)
    requires Inv(d.order)
    ensures Inv(RunDesk(d, acts).order) && RunDesk(d, acts).order.mode == d.order.mode
    decreases |acts|
  {
    if acts != [] {
      RunKeepsInv(d, acts[..|acts| - 1]);
      DoKeepsInv(RunDesk(d, acts[..|acts| - 1]), acts[|acts| - 1]);
    }
  }

  lemma {:induction false} RunConcat(d: Desk, a: seq<Act>, b: seq<Act>)
    ensures RunDesk(d, a + b) == RunDesk(RunDesk(d, a), b)
    decreases |b|
  {
    if b == [] {
      assert a + b == a;
    } else {
      var n := |b| - 1;
      var whole := a + b;
      RunConcat(d, a, b[..n]);
      assert whole[..|whole| - 1] == a + b[..n] && whole[|whole| - 1] == b[n];
    }
  }

  lemma RunTwo(d: Desk, a: Act, b: Act)
    ensures RunDesk(d, [a, b]) == Do(Do(d, a), b)
  {
    assert [a][..0] == [] && [a, b][..1] == [a];
    assert RunDesk(d, [a]) == Do(d, a);
  }

  // ---- when no second capture can follow

  /** No attempt is recorded, and one is pending or can still come. */
  predicate AttemptIsOpen(d: Desk) { AttemptStarted !in d.order.recorded && (d.pending > 0 || IsCreated(d.order)) }

  /** What must hold for the payment to be captured twice yet. */
  predicate MayCaptureTwice(d: Desk) {
    && d.order.payment.Some? && AttemptIsOpen(d)
    && d.order.state != Delivered && (Stopped(d.order) ==> IsCaptured(d.order))
  }

  /** No second capture can follow. */
  predicate Spent(d: Desk) {
    || d.order.payment.None?
    || (Truthful(d.order) && (AttemptStarted in d.order.recorded || (d.pending == 0 && !IsCreated(d.order))))
    || d.order.state == Delivered
    || (Stopped(d.order) && !PaidInTime(d.order))
  }

  lemma InitiationKeepsSpent(d: Desk)
    requires Inv(d.order) && Spent(d)
    ensures Spent(Do(d, Write)) && Spent(Do(d, Look))
  {
  }

  lemma SettleKeepsSpent(d: Desk, success: bool)
    requires Inv(d.order) && Spent(d)
    ensures Spent(Do(d, Other(Settle(success))))
  {
    CaptureKeepsInv(d.order, success);
  }

  lemma MoveKeepsSpent(d: Desk, to: OrderState, cod: Option<Collection>, actor: string)
    requires Inv(d.order) && Spent(d)
    ensures Spent(Do(d, Other(Move(to, cod, actor))))
  {
    NextKeepsInv(d.order, Move(to, cod, actor));
    TransitionMovesOrNot(d.order, to, cod, actor);
  }

  lemma StepKeepsSpent(d: Desk, step: Step)
    requires Inv(d.order) && Spent(d) && !step.PayLate?
    ensures Spent(Do(d, Other(step)))
  {
    match step
    case Move(to, cod, actor) => MoveKeepsSpent(d, to, cod, actor);
    case Settle(success) => SettleKeepsSpent(d, success);
    case Pay => NextKeepsInv(d.order, step);
    case _ =>
  }

  lemma SpentIsSingle(d: Desk)
    requires Inv(d.order) && Spent(d)
    ensures Captures(d.order) <= 1
  {
  }

  lemma {:induction false} SpentForEver(d: Desk, acts: seq<Act>)
    requires Inv(d.order) && Spent(d)
    ensures Inv(RunDesk(d, acts).order) && Spent(RunDesk(d, acts)) && Captures(RunDesk(d, acts).order) <= 1
    decreases |acts|
  {
    if acts == [] {
      SpentIsSingle(d);
    } else {
      var n := |acts| - 1;
      var before := RunDesk(d, acts[..n]);
      SpentForEver(d, acts[..n]);
      DoKeepsInv(before, acts[n]);
      match acts[n] {
        case Other(step) => if !step.PayLate? { StepKeepsSpent(before, step); }
        case _ => InitiationKeepsSpent(before);
      }
      SpentIsSingle(RunDesk(d, acts));
    }
  }

  // ---- when one can

  /** An order that is captured and stopped, with an initiation in flight: it writes, and a success captures again. */
  lemma TwiceWhenStopped(d: Desk) returns (acts: seq<Act>)
    requires Right(d.order) && IsCaptured(d.order) && Stopped(d.order)
    requires AttemptStarted !in d.order.recorded && d.pending > 0
    ensures Captures(RunDesk(d, acts).order) == 2
  {
    acts := [Write, Other(Settle(true))];
    RunTwo(d, Write, Other(Settle(true)));
    LateInitiationKeepsTruthIff(d.order);
  }

  lemma CaptureSettles(o: Order)
    requires Right(o) && o.payment.Some? && !Stopped(o) && o.state != Delivered && AttemptStarted !in o.recorded
    ensures var paid := Capture(o, true);
      && Right(paid) && IsCaptured(paid) && !Stopped(paid) && paid.state != Delivered && !Pending(paid)
      && AttemptStarted !in paid.recorded
  {
    CaptureKeepsInv(o, true);
  }

  lemma StopKeepsPayment(o: Order)
    requires Right(o) && IsCaptured(o) && !Stopped(o) && o.state != Delivered && !Pending(o)
    ensures var stopped := Next(o, Move(RefundDue, None, ""));
      Right(stopped) && IsCaptured(stopped) && Stopped(stopped) && stopped.recorded == o.recorded
  {
    NextKeepsInv(o, Move(RefundDue, None, ""));
    TransitionMovesOrNot(o, RefundDue, None, "");
  }

  lemma TwiceWithPending(d: Desk) returns (acts: seq<Act>)
    requires Right(d.order) && MayCaptureTwice(d) && d.pending > 0
    ensures Captures(RunDesk(d, acts).order) == 2
  {
    if Stopped(d.order) {
      acts := TwiceWhenStopped(d);
    } else {
      var pay, stop := Other(Settle(true)), Other(Move(RefundDue, None, ""));
      CaptureSettles(d.order);
      StopKeepsPayment(Do(d, pay).order);
      RunTwo(d, pay, stop);
      var rest := TwiceWhenStopped(Do(Do(d, pay), stop));
      acts := [pay, stop] + rest;
      RunConcat(d, [pay, stop], rest);
    }
  }

  lemma TwiceFromHere(d: Desk) returns (acts: seq<Act>)
    requires Right(d.order) && MayCaptureTwice(d)
    ensures Captures(RunDesk(d, acts).order) == 2
  {
    if d.pending > 0 {
      acts := TwiceWithPending(d);
    } else {
      var rest := TwiceWithPending(Do(d, Look));
      acts := [Look] + rest;
      RunConcat(d, [Look], rest);
      assert [Look][..0] == [];
    }
  }

  /** A payment can be captured twice, in some continuation, exactly when no attempt is recorded, an initiation is in
      flight or may still come, the order is not delivered, and it has not been stopped unpaid. */
  lemma DoubleCaptureIff(d: Desk)
    requires Right(d.order)
    ensures (exists acts :: Read(d.order.mode, RunDesk(d, acts).order.ledger).captures == 2) <==> MayCaptureTwice(d)
  {
    forall acts
      ensures Read(d.order.mode, RunDesk(d, acts).order.ledger).captures == Captures(RunDesk(d, acts).order)
    {
      RunKeepsInv(d, acts);
    }
    if MayCaptureTwice(d) {
      var acts := TwiceFromHere(d);
      assert Read(d.order.mode, RunDesk(d, acts).order.ledger).captures == 2;
    } else {
      forall acts ensures Captures(RunDesk(d, acts).order) <= 1 { SpentForEver(d, acts); }
    }
  }

  /** So a placed order is at risk exactly when it asks for something now, until its first attempt is recorded. */
  lemma PlacedOrderIsCapturedTwiceIff(quote: Quote, mode: Mode, now: nat, id: nat, paymentId: nat)
    requires Sound(mode, OptionFor(quote.options, mode))
    ensures var d := Desk(NewOrder(quote, mode, now, id, paymentId), 0);
      (exists acts :: Read(mode, RunDesk(d, acts).order.ledger).captures == 2)
      <==> OptionFor(quote.options, mode).payNow > 0
  {
    CreationKeepsInv(quote, mode, now, id, paymentId);
    DoubleCaptureIff(Desk(NewOrder(quote, mode, now, id, paymentId), 0));
  }
}
