/** The books of every order in the shop, whatever calls, replays, captures and moves are under way. */
module CheckoutShop {
  import opened CheckoutQuote
  import opened CheckoutOrders
  import opened CheckoutIdempotency
  import opened Base
  import L = CheckoutLedger

  /** The step creates only from a quote whose options split exactly, as every computed quote's do. */
  predicate FairStep(step: CheckoutIdempotency.Step) {
    step.Create? && step.quote.Some? ==>
      Sound(step.content.mode, OptionFor(step.quote.value.options, step.content.mode))
  }

  predicate Fair(steps: seq<CheckoutIdempotency.Step>) { forall i :: 0 <= i < |steps| ==> FairStep(steps[i]) }

  ghost predicate Balanced(s: State) {
    && (forall id :: id in s.orders ==> L.Inv(s.orders[id]))
    && (forall c :: c in s.calls && s.calls[c].Call? ==> SoundTask(s.calls[c].task))
  }

  predicate SoundTask(task: Task) {
    task.PlaceOrder? ==> Sound(task.content.mode, OptionFor(task.quote.options, task.content.mode))
  }

  lemma StepKeepsBalance(s: State, step: CheckoutIdempotency.Step)
    requires Balanced(s) && FairStep(step)
    ensures Balanced(CheckoutIdempotency.Next(s, step))
  {
    if Enabled(s, step) {
      var t := Apply(s, step);
      forall c | c in t.calls && t.calls[c].Call? ensures SoundTask(t.calls[c].task) { TaskIsSound(s, step, c); }
      forall id | id in t.orders ensures L.Inv(t.orders[id]) { OrderBalances(s, step, id); }
    }
  }

  lemma OrderBalances(s: State, step: CheckoutIdempotency.Step, id: nat)
    requires Balanced(s) && FairStep(step) && Enabled(s, step) && id in Apply(s, step).orders
    ensures L.Inv(Apply(s, step).orders[id])
  {
    if !Writes(step) { OtherStepsOnlyMoveCalls(s, step); }
    match step
    case ExecuteCreate(c, i, p) => CreatedOrderBalances(s, c, i, p, id);
    case ExecuteCapture(c) => CapturedOrderBalances(s, c, id);
    case Elsewhere(i, other) => if i == id { L.NextKeepsInv(s.orders[id], other); }
    case _ =>
  }

  lemma TaskIsSound(s: State, step: CheckoutIdempotency.Step, c: nat)
    requires Balanced(s) && FairStep(step) && Enabled(s, step)
    requires c in Apply(s, step).calls && Apply(s, step).calls[c].Call?
    ensures SoundTask(Apply(s, step).calls[c].task)
  {
    assert CheckoutIdempotency.Next(s, step) == Apply(s, step);
    if c in s.calls {
      CallsKeepTheirKey(s, step, c);
    } else {
      if Mover(step) != Some(c) { OtherCallsStand(s, step, c); }
      NewTaskIsSound(s, step);
    }
  }

  lemma NewTaskIsSound(s: State, step: CheckoutIdempotency.Step)
    requires FairStep(step) && Enabled(s, step) && (step.Create? || step.MockComplete?)
    ensures step.call in Apply(s, step).calls
    ensures Apply(s, step).calls[step.call].Call? ==> SoundTask(Apply(s, step).calls[step.call].task)
  {
  }

  lemma CreatedOrderBalances(s: State, c: nat, i: nat, p: nat, id: nat)
    requires Balanced(s) && Enabled(s, ExecuteCreate(c, i, p)) && id in Apply(s, ExecuteCreate(c, i, p)).orders
    ensures L.Inv(Apply(s, ExecuteCreate(c, i, p)).orders[id])
  {
    var task := s.calls[c].task;
    assert SoundTask(task);
    L.CreationKeepsInv(task.quote, task.content.mode, s.now, i, p);
  }

  lemma CapturedOrderBalances(s: State, c: nat, id: nat)
    requires Balanced(s) && Enabled(s, ExecuteCapture(c)) && id in Apply(s, ExecuteCapture(c)).orders
    ensures L.Inv(Apply(s, ExecuteCapture(c)).orders[id])
  {
    OnlyItsOrderIsCaptured(s, c, id);
    L.CaptureKeepsInv(s.orders[id], s.calls[c].task.success);
  }

  lemma OnlyItsOrderIsCaptured(s: State, c: nat, id: nat)
    requires Enabled(s, ExecuteCapture(c)) && id in Apply(s, ExecuteCapture(c)).orders
    ensures id in s.orders
    ensures var o := Apply(s, ExecuteCapture(c)).orders[id];
      o == s.orders[id] || o == CheckoutOrders.Capture(s.orders[id], s.calls[c].task.success)
  {
  }

  lemma {:induction false} RunKeepsBalance(steps: seq<CheckoutIdempotency.Step>)
    requires Fair(steps)
    ensures Balanced(CheckoutIdempotency.Run(Initial, steps))
  {
    if steps != [] {
      var n := |steps| - 1;
      RunKeepsBalance(steps[..n]);
      StepKeepsBalance(CheckoutIdempotency.Run(Initial, steps[..n]), steps[n]);
    }
  }

  /** However often a creation or a capture is retried, raced or replayed, under however many keys, and however late
      initiations come, each order's books stay right: its rows lead to its state, a delivered order holds exactly its
      total, and a second capture is only ever one that is refunded. */
  lemma RetriesNeverUnbalance(steps: seq<CheckoutIdempotency.Step>, id: nat)
    requires Fair(steps) && id in CheckoutIdempotency.Run(Initial, steps).orders
    ensures var o := CheckoutIdempotency.Run(Initial, steps).orders[id]; var b := L.Read(o.mode, o.ledger);
      && b.state == Some(o.state) && b.collections <= 1 && b.moves <= 3
      && (b.captures <= 1 || (b.captures == 2 && o.state == RefundDue && b.refunded == o.payNow))
      && (o.state == Delivered ==> L.Held(b) == o.total)
      && (L.Pending(o) ==> L.Held(b) == 0)
  {
    RunKeepsBalance(steps);
  }
}
