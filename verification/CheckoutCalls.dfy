/** What a caller of `createOrder` and of `mockComplete` gets, from the request as sent to the rows it leaves
    (`checkout-order.service.ts`, `checkout-payment.service.ts`). */
module CheckoutCalls {
  import opened Base
  import opened CheckoutQuote
  import opened CheckoutOrders
  import opened CheckoutIdempotency
  import Text

  type IdStep = CheckoutIdempotency.Step

  function NextCall(s: State, step: IdStep): State { CheckoutIdempotency.Next(s, step) }

  function RunCalls(s: State, steps: seq<IdStep>): State { CheckoutIdempotency.Run(s, steps) }

  // ---- the request a call stands for

  predicate Foreign(quote: Quote, expected: Option<string>) { expected.Some? && quote.merchantId != expected.value }

  /** How `createOrder` files a request: under the quote's merchant and the very key that was sent. */
  predicate FiledCreate(call: Call, quote: Option<Quote>, content: Content, expected: Option<string>,
      key: Option<string>)
  {
    if quote.None? || Foreign(quote.value, expected) then call == Turned(QuoteNotFound)
    else if key.None? then call == Turned(KeyRequired)
    else
      && call.Call?
      && call.key == KeyId(quote.value.merchantId, CreateOrder, key.value)
      && call.task == PlaceOrder(quote.value, content)
  }

  /** How `mockComplete` files one, once its payment is there: under the order's merchant and the very key, for the
      holder of the order's token only. Orders and payments are never taken away, so a call that found its payment
      has one. */
  predicate FiledComplete(s: State, call: Call, p: nat, success: bool, token: Option<Token>, key: Option<string>) {
    if call == Turned(PaymentNotFound) then true
    else
      && FoundPayment(s, p)
      && var o := s.orders[s.payments[p]];
      if !Opens(token, o) then call == Turned(TokenRequired)
      else if key.None? then call == Turned(KeyRequired)
      else
        && call.Call?
        && call.key == KeyId(o.merchantId, CapturePayment(p), key.value)
        && call.task == Complete(p, success)
  }

  predicate Filed(s: State, call: Call, step: IdStep) {
    match step
    case Create(_, quote, content, expected, key) => FiledCreate(call, quote, content, expected, key)
    case MockComplete(_, p, success, token, key) => FiledComplete(s, call, p, success, token, key)
    case _ => false
  }

  /** Some step of the run sent the request that the call stands for. */
  ghost predicate WasSent(s: State, steps: seq<IdStep>, c: nat)
    requires c in s.calls
  {
    exists i :: 0 <= i < |steps| && Mover(steps[i]) == Some(c) && Filed(s, s.calls[c], steps[i])
  }

  lemma StepFiles(s: State, step: IdStep, c: nat)
    requires Enabled(s, step) && Mover(step) == Some(c) && c !in s.calls
    ensures c in Apply(s, step).calls && Filed(Apply(s, step), Apply(s, step).calls[c], step)
  {
  }

  lemma FiledStays(s: State, t: State, c: nat, step: IdStep)
    requires Grows(s, t) && c in s.calls && c in t.calls && Filed(s, s.calls[c], step)
    requires t.calls[c].Call? == s.calls[c].Call? && (s.calls[c].Turned? ==> t.calls[c] == s.calls[c])
    requires s.calls[c].Call? ==> t.calls[c].key == s.calls[c].key && t.calls[c].task == s.calls[c].task
    ensures Filed(t, t.calls[c], step)
  {
  }

  lemma TurnedStays(s: State, step: IdStep, c: nat)
    requires Enabled(s, step) && c in s.calls && s.calls[c].Turned?
    ensures c in Apply(s, step).calls && Apply(s, step).calls[c] == s.calls[c]
  {
    if Mover(step) != Some(c) { OtherCallsStand(s, step, c); }
  }

  /** In every interleaving each call stands, for good, under the key that was sent with it and for what was sent,
      or was turned away for the first thing that was wrong with it. */
  lemma {:induction false} CallsStandForWhatWasSent(steps: seq<IdStep>, c: nat)
    requires c in RunCalls(Initial, steps).calls
    ensures WasSent(RunCalls(Initial, steps), steps, c)
    decreases |steps|
  {
    var n := |steps| - 1;
    var s, step := RunCalls(Initial, steps[..n]), steps[n];
    if !Enabled(s, step) {
      Carry(s, s, steps, c);
    } else if c in s.calls {
      StepGrows(s, step);
      CallsKeepTheirKey(s, step, c);
      if s.calls[c].Turned? { TurnedStays(s, step, c); }
      Carry(s, Apply(s, step), steps, c);
    } else {
      if Mover(step) != Some(c) { OtherCallsStand(s, step, c); }
      StepFiles(s, step, c);
    }
  }

  lemma {:induction false} Carry(s: State, t: State, steps: seq<IdStep>, c: nat)
    requires steps != [] && s == RunCalls(Initial, steps[..|steps| - 1])
    requires Grows(s, t) && c in s.calls && c in t.calls
    requires t.calls[c].Call? == s.calls[c].Call? && (s.calls[c].Turned? ==> t.calls[c] == s.calls[c])
    requires s.calls[c].Call? ==> t.calls[c].key == s.calls[c].key && t.calls[c].task == s.calls[c].task
    ensures WasSent(t, steps, c)
    decreases |steps|, 0
  {
    var before := steps[..|steps| - 1];
    CallsStandForWhatWasSent(before, c);
    var i :| 0 <= i < |before| && Mover(before[i]) == Some(c) && Filed(s, s.calls[c], before[i]);
    FiledStays(s, t, c, before[i]);
    assert steps[i] == before[i];
  }

  /** How a raw request is filed: an empty expected merchant asks for no check, and a key of blanks is no key. */
  lemma RawRequestIsFiled(s: State, c: nat, quote: Option<Quote>, content: Content, expected: string, sent: string)
    requires c !in s.calls && (quote.Some? ==> quote.value.id == content.quoteId)
    ensures var t := NextCall(s, Create(c, quote, content, NonEmpty(expected), CleanKey(sent)));
      && t == s.(calls := t.calls) && c in t.calls
      && t.calls[c] ==
           if quote == None || (expected != "" && expected != quote.value.merchantId) then Turned(QuoteNotFound)
           else if Text.Trim(sent) == "" then Turned(KeyRequired)
           else
             var key := KeyId(quote.value.merchantId, CreateOrder, Text.Trim(sent));
             Call(key, PlaceOrder(quote.value, content), Reading)
  {
  }

  lemma RawCompletionIsFiled(s: State, c: nat, p: nat, success: bool, token: Option<Token>, sent: string)
    requires c !in s.calls && FoundPayment(s, p) && OrderOk(s, s.payments[p])
    ensures var o := s.orders[s.payments[p]];
      var t := NextCall(s, MockComplete(c, p, success, token, CleanKey(sent)));
      && t == s.(calls := t.calls) && c in t.calls
      && t.calls[c] ==
           if token != Some(o.token) then Turned(TokenRequired)
           else if Text.Trim(sent) == "" then Turned(KeyRequired)
           else Call(KeyId(o.merchantId, CapturePayment(p), Text.Trim(sent)), Complete(p, success), Reading)
  {
  }

  // ---- a request on a key of its own

  lemma RunThree(s: State, a: IdStep, b: IdStep, c: IdStep)
    ensures RunCalls(s, [a, b, c]) == NextCall(NextCall(NextCall(s, a), b), c)
  {
    assert [a] + [b, c] == [a, b, c] && [b] + [c] == [b, c] && [c] + [] == [c];
    RunThen(s, a, [b, c]);
    RunThen(NextCall(s, a), b, [c]);
    RunThen(NextCall(NextCall(s, a), b), c, []);
  }

  predicate QuoteIsOpen(quote: Quote, content: Content, now: nat) {
    now < quote.expiresAt && OptionFor(quote.options, content.mode).available && content.customerValid
  }

  /** One order is written, new or not, and one key added; every other row stays as it was. */
  ghost predicate Commits(s: State, t: State, id: nat, key: KeyId) {
    && t.now == s.now
    && t.orders.Keys == s.orders.Keys + {id}
    && (forall i :: i in s.orders && i != id ==> t.orders[i] == s.orders[i])
    && t.keys.Keys == s.keys.Keys + {key} && (forall k :: k in s.keys ==> t.keys[k] == s.keys[k])
  }

  /** The order is placed as quoted. */
  predicate AsQuoted(o: Order, quote: Quote, content: Content) {
    var option := OptionFor(quote.options, content.mode);
    && o.merchantId == quote.merchantId && o.quoteId == quote.id && o.mode == content.mode
    && o.total == option.total && o.payNow == option.payNow && o.payOnDelivery == option.payOnDelivery
    && o.token.issuedAt < quote.expiresAt && option.available && content.customerValid
  }

  /** A first request on a key places its order: while the quote is open, under the trimmed key that was sent and
      under no other, whatever other keys and orders there are. */
  lemma FreshKeyPlacesOrder(s: State, c: nat, quote: Quote, content: Content, sent: string, id: nat, p: nat)
    requires c !in s.calls && id !in s.orders && p !in s.payments
    requires quote.id == content.quoteId && QuoteIsOpen(quote, content, s.now)
    requires Text.Trim(sent) != "" && KeyId(quote.merchantId, CreateOrder, Text.Trim(sent)) !in s.keys
    ensures var t := RunCalls(s, [Create(c, Some(quote), content, None, CleanKey(sent)), ReadKey(c),
                                  ExecuteCreate(c, id, p)]);
      && Commits(s, t, id, KeyId(quote.merchantId, CreateOrder, Text.Trim(sent)))
      && c in t.calls && t.calls[c].Call? && t.calls[c].phase.Replied? && t.calls[c].phase.reply.OrderReply?
      && t.calls[c].phase.reply.orderId == id && t.calls[c].phase.reply.view == t.orders[id]
      && t.calls[c].phase.reply.token == t.orders[id].token == Token(id, quote.merchantId, s.now)
      && AsQuoted(t.orders[id], quote, content)
      && PaymentId(t.orders[id]) == (if OptionFor(quote.options, content.mode).payNow > 0 then Some(p) else None)
  {
    RunThree(s, Create(c, Some(quote), content, None, CleanKey(sent)), ReadKey(c), ExecuteCreate(c, id, p));
  }

  function At(s: State, c: nat, call: Call): State { s.(calls := s.calls[c := call]) }

  lemma FreeKeyIsRead(s: State, c: nat, key: KeyId, task: Task)
    requires key !in s.keys
    ensures NextCall(At(s, c, Call(key, task, Reading)), ReadKey(c)) == At(s, c, Call(key, task, Executing))
  {
  }

  lemma CompletionCommits(s: State, c: nat, p: nat, success: bool, k: KeyId)
    requires FoundPayment(s, p) && k !in s.keys && !Aborts(s.orders[s.payments[p]], success)
    ensures var id := s.payments[p]; var o := s.orders[id]; var r := Capture(o, success);
      NextCall(At(s, c, Call(k, Complete(p, success), Executing)), ExecuteCapture(c)) ==
      State(s.now, s.orders[id := r], s.payments,
            s.keys[k := KeyRow(CaptureBody(p, success), CapturePointer(p, Settled(o)))],
            s.calls[c := Call(k, Complete(p, success), Replied(CaptureReply(p, Settled(o), r)))])
  {
  }

  lemma CompletionGoesThrough(s: State, c: nat, p: nat, success: bool, sent: string)
    requires c !in s.calls && FoundPayment(s, p) && OrderOk(s, s.payments[p])
    requires var o := s.orders[s.payments[p]];
      && Text.Trim(sent) != "" && KeyId(o.merchantId, CapturePayment(p), Text.Trim(sent)) !in s.keys
      && !Aborts(o, success)
    ensures var id := s.payments[p]; var o := s.orders[id]; var r := Capture(o, success);
      var k := KeyId(o.merchantId, CapturePayment(p), Text.Trim(sent));
      RunCalls(s, [MockComplete(c, p, success, Some(o.token), CleanKey(sent)), ReadKey(c), ExecuteCapture(c)]) ==
      State(s.now, s.orders[id := r], s.payments,
            s.keys[k := KeyRow(CaptureBody(p, success), CapturePointer(p, Settled(o)))],
            s.calls[c := Call(k, Complete(p, success), Replied(CaptureReply(p, Settled(o), r)))])
  {
    var o := s.orders[s.payments[p]];
    var k := KeyId(o.merchantId, CapturePayment(p), Text.Trim(sent));
    RunThree(s, MockComplete(c, p, success, Some(o.token), CleanKey(sent)), ReadKey(c), ExecuteCapture(c));
    RawCompletionIsFiled(s, c, p, success, Some(o.token), sent);
    var filed := NextCall(s, MockComplete(c, p, success, Some(o.token), CleanKey(sent)));
    assert filed == At(s, c, Call(k, Complete(p, success), Reading));
    FreeKeyIsRead(s, c, k, Complete(p, success));
    CompletionCommits(s, c, p, success, k);
  }

  lemma CaptureSetsPayment(o: Order, success: bool)
    requires o.payment.Some? && !Aborts(o, success)
    ensures Settled(o) ==> Capture(o, success) == o
    ensures !Settled(o) ==>
      Capture(o, success).payment.Some? && Capture(o, success).payment.value.state ==
        if !success then Failed else if Stopped(o) then ToRefund else Captured
  {
  }

  /** The same for a completion: with the order's token and a key of its own it is carried out, under the key that was
      sent, unless the payment has that event already. */
  lemma FreshKeyCompletes(s: State, c: nat, p: nat, success: bool, sent: string)
    requires c !in s.calls && FoundPayment(s, p) && OrderOk(s, s.payments[p])
    requires var o := s.orders[s.payments[p]];
      && o.payment.Some?
      && Text.Trim(sent) != "" && KeyId(o.merchantId, CapturePayment(p), Text.Trim(sent)) !in s.keys
      && (Settled(o) || CompletionEvent(o, success) !in o.recorded)
    ensures var id := s.payments[p]; var o := s.orders[id];
      var t := RunCalls(s, [MockComplete(c, p, success, Some(o.token), CleanKey(sent)), ReadKey(c), ExecuteCapture(c)]);
      && Commits(s, t, id, KeyId(o.merchantId, CapturePayment(p), Text.Trim(sent)))
      && c in t.calls && t.calls[c].Call? && t.calls[c].phase == Replied(CaptureReply(p, Settled(o), t.orders[id]))
      && (Settled(o) ==> t.orders[id] == o)
      && (!Settled(o) ==>
            && t.orders[id].payment.Some?
            && t.orders[id].payment.value.state ==
                 if !success then Failed else if Stopped(o) then ToRefund else Captured)
  {
    CompletionGoesThrough(s, c, p, success, sent);
    CaptureSetsPayment(s.orders[s.payments[p]], success);
  }

  // ---- when a transaction places an order

  /** The transaction of a creating call on a free key commits exactly while the quote is open; otherwise it commits
      nothing, and answers the first thing that is wrong. */
  lemma TransactionPlacesIff(s: State, c: nat, id: nat, p: nat)
    requires Enabled(s, ExecuteCreate(c, id, p)) && s.calls[c].key !in s.keys
    ensures var t, task := NextCall(s, ExecuteCreate(c, id, p)), s.calls[c].task;
      var option := OptionFor(task.quote.options, task.content.mode);
      && (id in t.orders <==> s.now < task.quote.expiresAt && option.available && task.content.customerValid)
      && (id in t.orders <==> s.calls[c].key in t.keys)
      && (id !in t.orders ==>
            && t == s.(calls := t.calls) && t.calls[c].phase.Refused?
            && t.calls[c].phase.error.OrderRefused?
            && Http(t.calls[c].phase.error.refusal) ==
                 if task.quote.expiresAt <= s.now then HttpError(422, "CHECKOUT_QUOTE_EXPIRED")
                 else if !option.available then HttpError(400, "CHECKOUT_MODE_UNAVAILABLE")
                 else HttpError(400, "CHECKOUT_CUSTOMER_INVALID"))
  {
  }

  // ---- what a successful creation has placed

  /** The row of a creating key names an order that was placed as quoted, for a request that was sent under this key. */
  predicate PlacedBy(s: State, k: KeyId, step: IdStep)
    requires k in s.keys
  {
    var row := s.keys[k];
    && step.Create? && step.quote.Some? && step.key == Some(k.key)
    && row.hash == OrderBody(step.content) && row.pointer.OrderPointer? && row.pointer.orderId in s.orders
    && AsQuoted(s.orders[row.pointer.orderId], step.quote.value, step.content)
  }

  ghost predicate KeyIsQuoted(s: State, steps: seq<IdStep>, k: KeyId)
    requires k in s.keys
  {
    exists i :: 0 <= i < |steps| && PlacedBy(s, k, steps[i])
  }

  lemma PlacedStays(s: State, t: State, k: KeyId, step: IdStep)
    requires Grows(s, t) && k in s.keys && PlacedBy(s, k, step)
    ensures k in t.keys && PlacedBy(t, k, step)
  {
  }

  predicate Executes(step: IdStep) { step.ExecuteCreate? || step.ExecuteCapture? }

  lemma KeysComeFromExecutions(s: State, step: IdStep, k: KeyId)
    requires Enabled(s, step) && k !in s.keys && k in Apply(s, step).keys
    ensures Executes(step) && step.call in s.calls && s.calls[step.call].Call? && s.calls[step.call].key == k
  {
    if !Writes(step) { OtherStepsOnlyMoveCalls(s, step); }
  }

  /** Only the transaction of a creating call adds a creating key, and it is the call's own. */
  lemma OnlyExecutionAddsKeys(s: State, step: IdStep, k: KeyId)
    requires Inv(s) && Enabled(s, step) && k !in s.keys && k in Apply(s, step).keys && k.operation == CreateOrder
    ensures step.ExecuteCreate? && step.call in s.calls && s.calls[step.call].key == k
  {
    KeysComeFromExecutions(s, step, k);
    assert CallOk(s, s.calls[step.call]);
  }

  lemma CommitIsAsQuoted(s: State, c: nat, id: nat, p: nat)
    requires Enabled(s, ExecuteCreate(c, id, p)) && s.calls[c].key !in s.keys && Fits(s.calls[c])
    requires s.calls[c].key in NextCall(s, ExecuteCreate(c, id, p)).keys
    ensures var t, call := NextCall(s, ExecuteCreate(c, id, p)), s.calls[c];
      && t.keys[call.key].hash == OrderBody(call.task.content)
      && t.keys[call.key].pointer.OrderPointer? && t.keys[call.key].pointer.orderId == id
      && id in t.orders && AsQuoted(t.orders[id], call.task.quote, call.task.content)
  {
    TransactionPlacesIff(s, c, id, p);
  }

  lemma CommitIsQuoted(s: State, steps: seq<IdStep>, step: IdStep, k: KeyId)
    requires Inv(s) && Enabled(s, step) && k !in s.keys && k in Apply(s, step).keys && k.operation == CreateOrder
    requires forall c :: c in s.calls ==> WasSent(s, steps, c)
    ensures exists i :: 0 <= i < |steps| && PlacedBy(Apply(s, step), k, steps[i])
  {
    OnlyExecutionAddsKeys(s, step, k);
    var c := step.call;
    assert CallOk(s, s.calls[c]);
    CommitIsAsQuoted(s, c, step.orderId, step.newPaymentId);
    var i :| 0 <= i < |steps| && Mover(steps[i]) == Some(c) && Filed(s, s.calls[c], steps[i]);
    FiledCreateStep(s, c, steps[i]);
    assert PlacedBy(Apply(s, step), k, steps[i]);
  }

  /** The step that filed a creating call carried its quote, its content and its key. */
  lemma FiledCreateStep(s: State, c: nat, step: IdStep)
    requires c in s.calls && s.calls[c].Call? && s.calls[c].task.PlaceOrder? && Filed(s, s.calls[c], step)
    ensures step.Create? && step.quote == Some(s.calls[c].task.quote) && step.content == s.calls[c].task.content
    ensures step.key == Some(s.calls[c].key.key)
  {
  }

  lemma StillQuoted(s: State, step: IdStep, before: seq<IdStep>, k: KeyId)
    requires k in s.keys && KeyIsQuoted(s, before, k)
    ensures k in NextCall(s, step).keys && KeyIsQuoted(NextCall(s, step), before + [step], k)
  {
    var i :| 0 <= i < |before| && PlacedBy(s, k, before[i]);
    if Enabled(s, step) {
      StepGrows(s, step);
      PlacedStays(s, Apply(s, step), k, before[i]);
    }
    assert (before + [step])[i] == before[i];
  }

  /** Every creating key in every run stands for an order placed as quoted. */
  lemma {:induction false} KeysAreQuoted(steps: seq<IdStep>, k: KeyId)
    requires var s := RunCalls(Initial, steps); k in s.keys && k.operation == CreateOrder
    ensures KeyIsQuoted(RunCalls(Initial, steps), steps, k)
    decreases |steps|
  {
    var n := |steps| - 1;
    var before := steps[..n];
    var s, t := RunCalls(Initial, before), RunCalls(Initial, steps);
    assert before + [steps[n]] == steps;
    RunKeepsInv(Initial, before);
    if k in s.keys {
      KeysAreQuoted(before, k);
      StillQuoted(s, steps[n], before, k);
    } else {
      forall c | c in s.calls ensures WasSent(s, before, c) { CallsStandForWhatWasSent(before, c); }
      CommitIsQuoted(s, before, steps[n], k);
      var i :| 0 <= i < |before| && PlacedBy(t, k, before[i]);
      assert steps[i] == before[i];
    }
  }

  /** A quote is not changed once it is given out. */
  predicate QuotesStand(steps: seq<IdStep>) {
    forall i, j :: 0 <= i < |steps| && 0 <= j < |steps| && steps[i].Create? && steps[j].Create?
      && steps[i].quote.Some? && steps[j].quote.Some? && steps[i].quote.value.id == steps[j].quote.value.id
      ==> steps[i].quote == steps[j].quote
  }

  /** Every successful creation in every run, replays included, answers with an order of the quoted amounts that was
      placed before the quote expired, in a mode the quote offers and with valid fields. */
  lemma {:induction false} SuccessIsAsQuoted(steps: seq<IdStep>, c: nat)
    requires QuotesStand(steps)
    requires var s := RunCalls(Initial, steps);
      c in s.calls && s.calls[c].Call? && s.calls[c].phase.Replied? && s.calls[c].task.PlaceOrder?
    ensures var s := RunCalls(Initial, steps); var reply, task := s.calls[c].phase.reply, s.calls[c].task;
      reply.OrderReply? && reply.orderId in s.orders && AsQuoted(s.orders[reply.orderId], task.quote, task.content)
  {
    var s := RunCalls(Initial, steps);
    RunKeepsInv(Initial, steps);
    AnswerNamesKeysOrder(s, c);
    CallsStandForWhatWasSent(steps, c);
    KeysAreQuoted(steps, s.calls[c].key);
    var i :| 0 <= i < |steps| && PlacedBy(s, s.calls[c].key, steps[i]);
    var j :| 0 <= j < |steps| && Mover(steps[j]) == Some(c) && Filed(s, s.calls[c], steps[j]);
    FiledCreateStep(s, c, steps[j]);
    assert steps[i].quote == steps[j].quote;
  }

  lemma AnswerNamesKeysOrder(s: State, c: nat)
    requires Inv(s) && c in s.calls && s.calls[c].Call? && s.calls[c].phase.Replied? && s.calls[c].task.PlaceOrder?
    ensures var call := s.calls[c];
      && call.key in s.keys && call.key.operation == CreateOrder
      && s.keys[call.key].hash == OrderBody(call.task.content) && call.task.quote.id == call.task.content.quoteId
      && s.keys[call.key].pointer.OrderPointer? && s.keys[call.key].pointer.orderId in s.orders
      && s.orders[s.keys[call.key].pointer.orderId].quoteId == call.task.quote.id
      && call.phase.reply.OrderReply? && call.phase.reply.orderId == s.keys[call.key].pointer.orderId
  {
    assert CallOk(s, s.calls[c]) && KeyOk(s, s.calls[c].key);
  }
}
