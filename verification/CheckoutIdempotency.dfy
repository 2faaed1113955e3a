/** The exactly-once protocol of `withIdempotency` (`checkout-order.service.ts`), step by step, for the two operations
    that use it: creating an order and capturing a payment.

    A call reads its key, executes in a transaction that also inserts the key, and on a collision reads the key again;
    a replay then reads the order. The steps of any number of calls interleave freely with everything else that
    happens to the orders. Request hashes are modelled by what is hashed. */
module CheckoutIdempotency {
  import opened Base
  import opened CheckoutQuote
  import opened CheckoutOrders
  import Text

  datatype Operation = CreateOrder | CapturePayment(paymentId: nat)

  datatype KeyId = KeyId(merchantId: string, operation: Operation, key: string)

  /** The hashed part of an order request. `details` stands for customer and address, `customerValid` for the verdict of
      the field checks on them. */
  datatype Content = Content(quoteId: string, mode: Mode, details: string, customerValid: bool)

  datatype Hash = OrderBody(content: Content) | CaptureBody(paymentId: nat, success: bool)

  datatype Pointer =
    | OrderPointer(orderId: nat, payment: Option<nat>, token: Token)
    | CapturePointer(paymentId: nat, already: bool)

  datatype KeyRow = KeyRow(hash: Hash, pointer: Pointer)

  /** What `execute` and `hydrate` were closed over. */
  datatype Task = PlaceOrder(quote: Quote, content: Content) | Complete(paymentId: nat, success: bool)

  /** `view` is the order as it stood when the reply was made. */
  datatype Reply =
    | OrderReply(orderId: nat, payment: Option<nat>, token: Token, view: Order)
    | CaptureReply(paymentId: nat, already: bool, view: Order)

  datatype Error =
    | QuoteNotFound | PaymentNotFound | OrderNotFound | TokenRequired | KeyRequired
    | KeyConflict | ReplayInvalid | OrderRefused(refusal: Refusal) | Internal

  datatype Phase =
    | Reading
    | Executing
    | Raced                          // the transaction rolled back on a unique conflict
    | Hydrating(pointer: Pointer)
    | Replied(reply: Reply)
    | Refused(error: Error)

  datatype Call = Turned(error: Error) | Call(key: KeyId, task: Task, phase: Phase)

  datatype State = State(
    now: nat, orders: map<nat, Order>, payments: map<nat, nat>, keys: map<KeyId, KeyRow>, calls: map<nat, Call>)

  const Initial := State(0, map[], map[], map[], map[])

  function HashOf(task: Task): Hash {
    match task
    case PlaceOrder(_, content) => OrderBody(content)
    case Complete(paymentId, success) => CaptureBody(paymentId, success)
  }

  function PaymentId(o: Order): Option<nat> { if o.payment.Some? then Some(o.payment.value.id) else None }

  /** `assertOrderToken`. */
  predicate Opens(token: Option<Token>, o: Order) {
    token == Some(o.token) && o.token.orderId == o.id && o.token.merchantId == o.merchantId
  }

  /** The trimmed key, None when nothing is left of it; so is an empty expected merchant. */
  function CleanKey(key: string): Option<string> { NonEmpty(Text.Trim(key)) }

  function NonEmpty(s: string): Option<string> { if s == "" then None else Some(s) }

  datatype Step =
    | Create(call: nat, quote: Option<Quote>, content: Content, expected: Option<string>, key: Option<string>)
    | MockComplete(call: nat, paymentId: nat, success: bool, token: Option<Token>, key: Option<string>)
    | ReadKey(call: nat)
    | ExecuteCreate(call: nat, orderId: nat, newPaymentId: nat)
    | ExecuteCapture(call: nat)
    | ExecuteConflict(call: nat)            // a unique conflict on something else than the key
    | ExecuteError(call: nat)               // any other database error; nothing is committed
    | ReadAgain(call: nat)
    | Hydrate(call: nat)
    | Elsewhere(orderId: nat, step: CheckoutOrders.Step)
    | Tick(now: nat)

  predicate In(s: State, c: nat, phase: Phase) { c in s.calls && s.calls[c].Call? && s.calls[c].phase == phase }

  predicate Enabled(s: State, step: Step) {
    match step
    case Create(c, quote, content, _, _) => c !in s.calls && (quote.Some? ==> quote.value.id == content.quoteId)
    case MockComplete(c, _, _, _, _) => c !in s.calls
    case ReadKey(c) => In(s, c, Reading)
    case ExecuteCreate(c, id, p) => In(s, c, Executing) && s.calls[c].task.PlaceOrder? && id !in s.orders &&
      p !in s.payments
    case ExecuteCapture(c) => In(s, c, Executing) && s.calls[c].task.Complete?
    case ExecuteConflict(c) => In(s, c, Executing)
    case ExecuteError(c) => In(s, c, Executing)
    case ReadAgain(c) => In(s, c, Raced)
    case Hydrate(c) => c in s.calls && s.calls[c].Call? && s.calls[c].phase.Hydrating?
    case Elsewhere(id, step) => id in s.orders && !step.Settle?
    case Tick(now) => s.now <= now
  }

  function ToPhase(s: State, c: nat, phase: Phase): State
    requires c in s.calls && s.calls[c].Call?
  {
    s.(calls := s.calls[c := s.calls[c].(phase := phase)])
  }

  function Reject(s: State, c: nat, error: Error): State { s.(calls := s.calls[c := Turned(error)]) }

  function Start(s: State, c: nat, merchantId: string, operation: Operation, key: Option<string>, task: Task): State {
    if key.None? then Reject(s, c, KeyRequired)
    else s.(calls := s.calls[c := Call(KeyId(merchantId, operation, key.value), task, Reading)])
  }

  function CommitCreate(s: State, c: nat, id: nat, p: nat): State
    requires Enabled(s, ExecuteCreate(c, id, p))
  {
    var call := s.calls[c];
    var o := NewOrder(call.task.quote, call.task.content.mode, s.now, id, p);
    var row := KeyRow(HashOf(call.task), OrderPointer(id, PaymentId(o), o.token));
    State(s.now, s.orders[id := o], if o.payment.Some? then s.payments[p := id] else s.payments,
          s.keys[call.key := row],
          s.calls[c := call.(phase := Replied(OrderReply(id, PaymentId(o), o.token, o)))])
  }

  function CommitCapture(s: State, c: nat): State
    requires Enabled(s, ExecuteCapture(c)) && FoundPayment(s, s.calls[c].task.paymentId)
  {
    var call := s.calls[c];
    var p := call.task.paymentId;
    var before := s.orders[s.payments[p]];
    var already := Settled(before);
    var o := CheckoutOrders.Capture(before, call.task.success);
    State(s.now, s.orders[s.payments[p] := o], s.payments,
          s.keys[call.key := KeyRow(HashOf(call.task), CapturePointer(p, already))],
          s.calls[c := call.(phase := Replied(CaptureReply(p, already, o)))])
  }

  predicate FoundPayment(s: State, p: nat) { p in s.payments && s.payments[p] in s.orders }

  /** `hydrateOrderCreateReplay` or `hydrateCaptureReplay`. */
  function Outcome(s: State, task: Task, pointer: Pointer): Phase {
    match task
    case PlaceOrder(_, _) =>
      if !pointer.OrderPointer? then Refused(ReplayInvalid)
      else if pointer.orderId !in s.orders then Refused(OrderNotFound)
      else
        var o := s.orders[pointer.orderId];
        Replied(OrderReply(o.id, if pointer.payment == PaymentId(o) then pointer.payment else None, pointer.token, o))
    case Complete(_, _) =>
      if !pointer.CapturePointer? then Refused(ReplayInvalid)
      else if !FoundPayment(s, pointer.paymentId) then Refused(PaymentNotFound)
      else Replied(CaptureReply(pointer.paymentId, pointer.already, s.orders[s.payments[pointer.paymentId]]))
  }

  function Apply(s: State, step: Step): State
    requires Enabled(s, step)
  {
    match step
    case Create(c, quote, content, expected, key) =>
      if quote.None? || (expected.Some? && quote.value.merchantId != expected.value) then Reject(s, c, QuoteNotFound)
      else Start(s, c, quote.value.merchantId, CreateOrder, key, PlaceOrder(quote.value, content))
    case MockComplete(c, p, success, token, key) =>
      if !FoundPayment(s, p) then Reject(s, c, PaymentNotFound)
      else if !Opens(token, s.orders[s.payments[p]]) then Reject(s, c, TokenRequired)
      else Start(s, c, s.orders[s.payments[p]].merchantId, CapturePayment(p), key, Complete(p, success))
    case ReadKey(c) =>
      var call := s.calls[c];
      if call.key !in s.keys then ToPhase(s, c, Executing)
      else if s.keys[call.key].hash != HashOf(call.task) then ToPhase(s, c, Refused(KeyConflict))
      else ToPhase(s, c, Hydrating(s.keys[call.key].pointer))
    case ExecuteCreate(c, id, p) =>
      var call := s.calls[c];
      var refusal := CreateRefusal(call.task.quote, call.task.content.mode, call.task.content.customerValid, s.now);
      if refusal.Some? then ToPhase(s, c, Refused(OrderRefused(refusal.value)))
      else if call.key in s.keys then ToPhase(s, c, Raced)
      else CommitCreate(s, c, id, p)
    case ExecuteCapture(c) =>
      var call := s.calls[c];
      if !FoundPayment(s, call.task.paymentId) then ToPhase(s, c, Refused(PaymentNotFound))
      else if Aborts(s.orders[s.payments[call.task.paymentId]], call.task.success) then ToPhase(s, c, Refused(Internal))
      else if call.key in s.keys then ToPhase(s, c, Raced)
      else CommitCapture(s, c)
    case ExecuteConflict(c) => ToPhase(s, c, Raced)
    case ExecuteError(c) => ToPhase(s, c, Refused(Internal))
    case ReadAgain(c) =>
      var call := s.calls[c];
      if call.key in s.keys && s.keys[call.key].hash == HashOf(call.task) then
        ToPhase(s, c, Hydrating(s.keys[call.key].pointer))
      else ToPhase(s, c, Refused(KeyConflict))
    case Hydrate(c) => ToPhase(s, c, Outcome(s, s.calls[c].task, s.calls[c].phase.pointer))
    case Elsewhere(id, step) => s.(orders := s.orders[id := CheckoutOrders.Next(s.orders[id], step)])
    case Tick(now) => s.(now := now)
  }

  function Next(s: State, step: Step): State { if Enabled(s, step) then Apply(s, step) else s }

  function Run(s: State, steps: seq<Step>): State {
    if steps == [] then s else var n := |steps| - 1; Next(Run(s, steps[..n]), steps[n])
  }

  // ---- the service

  /** The tables, and the calls in flight. Each method is what a call does between two awaits on the database, a
      transaction being one. */
  class CheckoutOrderService {
    var now: nat
    var orders: map<nat, Order>
    var payments: map<nat, nat>
    var keys: map<KeyId, KeyRow>
    var calls: map<nat, Call>

    ghost function Abstract(): State
      reads this
    {
      State(now, orders, payments, keys, calls)
    }

    constructor ()
      ensures Abstract() == Initial
    {
      now := 0;
      orders, payments, keys, calls := map[], map[], map[], map[];
    }

    method SetPhase(c: nat, phase: Phase)
      requires c in calls && calls[c].Call?
      modifies this`calls
      ensures Abstract() == ToPhase(old(Abstract()), c, phase)
    {
      calls := calls[c := calls[c].(phase := phase)];
    }

    /** `withIdempotency` up to its first read. */
    method Begin(c: nat, merchantId: string, operation: Operation, rawKey: string, task: Task)
      modifies this`calls
      ensures Abstract() == Start(old(Abstract()), c, merchantId, operation, CleanKey(rawKey), task)
    {
      var key := Text.Trim(rawKey);
      if key == "" {
        calls := calls[c := Turned(KeyRequired)];
      } else {
        calls := calls[c := Call(KeyId(merchantId, operation, key), task, Reading)];
      }
    }

    method CreateOrder(c: nat, quote: Option<Quote>, content: Content, expectedMerchantId: string, rawKey: string)
      requires Enabled(Abstract(), Create(c, quote, content, NonEmpty(expectedMerchantId), CleanKey(rawKey)))
      modifies this`calls
      ensures Abstract() == Apply(old(Abstract()),
        Create(c, quote, content, NonEmpty(expectedMerchantId), CleanKey(rawKey)))
    {
      if quote.None? {
        calls := calls[c := Turned(QuoteNotFound)];
      } else if expectedMerchantId != "" && quote.value.merchantId != expectedMerchantId {
        calls := calls[c := Turned(QuoteNotFound)];
      } else {
        Begin(c, quote.value.merchantId, Operation.CreateOrder, rawKey, PlaceOrder(quote.value, content));
      }
    }

    method CompletePayment(c: nat, paymentId: nat, success: bool, token: Option<Token>, rawKey: string)
      requires Enabled(Abstract(), MockComplete(c, paymentId, success, token, CleanKey(rawKey)))
      modifies this`calls
      ensures Abstract() == Apply(old(Abstract()), MockComplete(c, paymentId, success, token, CleanKey(rawKey)))
    {
      if paymentId !in payments || payments[paymentId] !in orders {
        calls := calls[c := Turned(PaymentNotFound)];
        return;
      }
      var order := orders[payments[paymentId]];
      if Opens(token, order) {
        Begin(c, order.merchantId, CapturePayment(paymentId), rawKey, Complete(paymentId, success));
      } else {
        calls := calls[c := Turned(TokenRequired)];
      }
    }

    method FindExisting(c: nat)
      requires Enabled(Abstract(), ReadKey(c))
      modifies this`calls
      ensures Abstract() == Apply(old(Abstract()), ReadKey(c))
    {
      var call := calls[c];
      if call.key in keys {
        var existing := keys[call.key];
        if existing.hash != HashOf(call.task) {
          SetPhase(c, Refused(KeyConflict));
        } else {
          SetPhase(c, Hydrating(existing.pointer));
        }
      } else {
        SetPhase(c, Executing);
      }
    }

    /** `createOrderFromQuote` and the insert of the key. Nothing is assigned when the insert would collide. */
    method TransactCreate(c: nat, orderId: nat, newPaymentId: nat)
      requires Enabled(Abstract(), ExecuteCreate(c, orderId, newPaymentId))
      modifies this
      ensures Abstract() == Apply(old(Abstract()), ExecuteCreate(c, orderId, newPaymentId))
    {
      var call := calls[c];
      var quote, content := call.task.quote, call.task.content;
      var refusal := CreateRefusal(quote, content.mode, content.customerValid, now);
      if refusal.Some? {
        SetPhase(c, Refused(OrderRefused(refusal.value)));
        return;
      }
      var row := new CheckoutOrderRow.CreateFromQuote(quote, content.mode, now, orderId, newPaymentId);
      var order := row.order;
      var payment: Option<nat> := None;
      if order.payment.Some? { payment := Some(newPaymentId); }
      if call.key in keys {
        SetPhase(c, Raced);
        return;
      }
      orders := orders[orderId := order];
      if payment.Some? { payments := payments[newPaymentId := orderId]; }
      keys := keys[call.key := KeyRow(HashOf(call.task), OrderPointer(orderId, payment, order.token))];
      SetPhase(c, Replied(OrderReply(orderId, payment, order.token, order)));
    }

    /** `captureInTransaction` and the insert of the key. */
    method TransactCapture(c: nat)
      requires Enabled(Abstract(), ExecuteCapture(c))
      modifies this
      ensures Abstract() == Apply(old(Abstract()), ExecuteCapture(c))
    {
      var call := calls[c];
      var p := call.task.paymentId;
      if p !in payments || payments[p] !in orders {
        SetPhase(c, Refused(PaymentNotFound));
        return;
      }
      var id := payments[p];
      var row := new CheckoutOrderRow.Load(orders[id]);
      var already, aborted := row.CaptureInTransaction(call.task.success);
      if aborted {
        SetPhase(c, Refused(Internal));
        return;
      }
      if call.key in keys {
        SetPhase(c, Raced);
        return;
      }
      orders := orders[id := row.order];
      keys := keys[call.key := KeyRow(HashOf(call.task), CapturePointer(p, already))];
      SetPhase(c, Replied(CaptureReply(p, already, row.order)));
    }

    method FindRaced(c: nat)
      requires Enabled(Abstract(), ReadAgain(c))
      modifies this`calls
      ensures Abstract() == Apply(old(Abstract()), ReadAgain(c))
    {
      var call := calls[c];
      if call.key in keys && keys[call.key].hash == HashOf(call.task) {
        SetPhase(c, Hydrating(keys[call.key].pointer));
      } else {
        SetPhase(c, Refused(KeyConflict));
      }
    }

    method HydrateReplay(c: nat)
      requires Enabled(Abstract(), Hydrate(c))
      modifies this`calls
      ensures Abstract() == Apply(old(Abstract()), Hydrate(c))
    {
      var pointer := calls[c].phase.pointer;
      if calls[c].task.PlaceOrder? {
        if !pointer.OrderPointer? {
          SetPhase(c, Refused(ReplayInvalid));
        } else if pointer.orderId !in orders {
          SetPhase(c, Refused(OrderNotFound));
        } else {
          var order := orders[pointer.orderId];
          var payment: Option<nat> := None;
          if pointer.payment.Some? && PaymentId(order) == pointer.payment { payment := pointer.payment; }
          SetPhase(c, Replied(OrderReply(order.id, payment, pointer.token, order)));
        }
      } else {
        if !pointer.CapturePointer? {
          SetPhase(c, Refused(ReplayInvalid));
        } else if pointer.paymentId !in payments || payments[pointer.paymentId] !in orders {
          SetPhase(c, Refused(PaymentNotFound));
        } else {
          SetPhase(c, Replied(CaptureReply(pointer.paymentId, pointer.already, orders[payments[pointer.paymentId]])));
        }
      }
    }
  }

  // ---- the invariant

  /** What nothing changes of an order once it is there. */
  predicate SameOrder(o: Order, r: Order) {
    && r.id == o.id && r.merchantId == o.merchantId && r.quoteId == o.quoteId && r.mode == o.mode
    && r.token == o.token && PaymentId(r) == PaymentId(o)
    && r.total == o.total && r.payNow == o.payNow && r.payOnDelivery == o.payOnDelivery
  }

  ghost predicate Grows(s: State, t: State) {
    && s.now <= t.now
    && (forall id :: id in s.orders ==> id in t.orders && SameOrder(s.orders[id], t.orders[id]))
    && (forall p :: p in s.payments ==> p in t.payments && t.payments[p] == s.payments[p])
    && (forall k :: k in s.keys ==> k in t.keys && t.keys[k] == s.keys[k])
  }

  predicate OrderOk(s: State, id: nat)
    requires id in s.orders
  {
    var o := s.orders[id];
    && o.id == id && o.token.orderId == id && o.token.merchantId == o.merchantId
    && (o.payment.Some? ==> o.payment.value.id in s.payments && s.payments[o.payment.value.id] == id)
  }

  predicate PaymentOk(s: State, p: nat)
    requires p in s.payments
  {
    s.payments[p] in s.orders && PaymentId(s.orders[s.payments[p]]) == Some(p)
  }

  predicate KeyOk(s: State, k: KeyId)
    requires k in s.keys
  {
    var row := s.keys[k];
    match k.operation
    case CreateOrder =>
      && row.hash.OrderBody? && row.pointer.OrderPointer? && row.pointer.orderId in s.orders
      && var o := s.orders[row.pointer.orderId];
      && o.merchantId == k.merchantId && o.quoteId == row.hash.content.quoteId && o.mode == row.hash.content.mode
      && row.pointer == OrderPointer(o.id, PaymentId(o), o.token)
    case CapturePayment(p) =>
      row.hash.CaptureBody? && row.hash.paymentId == p && row.pointer.CapturePointer? && row.pointer.paymentId == p &&
        p in s.payments
  }

  /** The key under which an order was placed. */
  predicate Places(s: State, k: KeyId, id: nat) {
    k in s.keys && k.operation == CreateOrder && s.keys[k].pointer.OrderPointer? && s.keys[k].pointer.orderId == id
  }

  ghost predicate OneKeyPerOrder(s: State) {
    && (forall id :: id in s.orders ==> exists k :: Places(s, k, id))
    && (forall k, l, id :: Places(s, k, id) && Places(s, l, id) ==> k == l)
  }

  /** The reply tells what the key's row tells. */
  predicate Answers(r: Reply, pointer: Pointer) {
    match pointer
    case OrderPointer(id, payment, token) =>
      r.OrderReply? && r.orderId == id && r.payment == payment && r.token == token && r.view.id == id &&
        r.view.token == token
    case CapturePointer(p, already) =>
      r.CaptureReply? && r.paymentId == p && r.already == already && PaymentId(r.view) == Some(p)
  }

  predicate Fits(call: Call)
    requires call.Call?
  {
    match call.task
    case PlaceOrder(quote, content) =>
      call.key.operation == CreateOrder && call.key.merchantId == quote.merchantId && quote.id == content.quoteId
    case Complete(p, _) => call.key.operation == CapturePayment(p)
  }

  predicate Holds(s: State, call: Call)
    requires call.Call?
  {
    call.key in s.keys && s.keys[call.key].hash == HashOf(call.task)
  }

  predicate CallOk(s: State, call: Call)
    requires call.Call?
  {
    && Fits(call)
    && (call.task.Complete? ==> call.task.paymentId in s.payments)
    && (call.phase.Hydrating? ==> Holds(s, call) && call.phase.pointer == s.keys[call.key].pointer)
    && (call.phase.Replied? ==> Holds(s, call) && Answers(call.phase.reply, s.keys[call.key].pointer))
  }

  ghost predicate TablesInv(s: State) {
    && (forall id :: id in s.orders ==> OrderOk(s, id))
    && (forall p :: p in s.payments ==> PaymentOk(s, p))
    && (forall k :: k in s.keys ==> KeyOk(s, k))
    && OneKeyPerOrder(s)
  }

  ghost predicate Inv(s: State) {
    TablesInv(s) && forall c :: c in s.calls && s.calls[c].Call? ==> CallOk(s, s.calls[c])
  }

  // ---- every step keeps it

  /** Only these steps write to the tables; the others move one call. */
  predicate Writes(step: Step) { step.ExecuteCreate? || step.ExecuteCapture? || step.Elsewhere? || step.Tick? }

  lemma OtherStepsOnlyMoveCalls(s: State, step: Step)
    requires Enabled(s, step) && !Writes(step)
    ensures Apply(s, step) == s.(calls := Apply(s, step).calls)
  {
  }

  lemma NextKeepsOrder(o: Order, step: CheckoutOrders.Step)
    ensures SameOrder(o, CheckoutOrders.Next(o, step))
  {
  }

  lemma CaptureKeepsOrder(o: Order, success: bool)
    ensures SameOrder(o, CheckoutOrders.Capture(o, success))
  {
  }

  lemma ExecuteCreateGrows(s: State, step: Step)
    requires Enabled(s, step) && step.ExecuteCreate?
    ensures Grows(s, Apply(s, step))
  {
  }

  lemma ExecuteCaptureGrows(s: State, step: Step)
    requires Enabled(s, step) && step.ExecuteCapture?
    ensures Grows(s, Apply(s, step)) && Apply(s, step).orders.Keys == s.orders.Keys &&
      Apply(s, step).payments == s.payments
  {
    var p := s.calls[step.call].task.paymentId;
    if FoundPayment(s, p) { CaptureKeepsOrder(s.orders[s.payments[p]], s.calls[step.call].task.success); }
  }

  lemma ElsewhereGrows(s: State, step: Step)
    requires Enabled(s, step) && step.Elsewhere?
    ensures var t := Apply(s, step);
      Grows(s, t) && t.orders.Keys == s.orders.Keys && t.payments == s.payments && t.keys == s.keys &&
        t.calls == s.calls
  {
    NextKeepsOrder(s.orders[step.orderId], step.step);
  }

  lemma StepGrows(s: State, step: Step)
    requires Enabled(s, step)
    ensures Grows(s, Apply(s, step))
  {
    if step.ExecuteCreate? { ExecuteCreateGrows(s, step); }
    else if step.ExecuteCapture? { ExecuteCaptureGrows(s, step); }
    else if step.Elsewhere? { ElsewhereGrows(s, step); }
    else if !step.Tick? { OtherStepsOnlyMoveCalls(s, step); }
  }

  /** Rows that only grow stay right. */
  lemma GrowthKeepsRows(s: State, t: State)
    requires TablesInv(s) && Grows(s, t)
    ensures forall id :: id in s.orders ==> OrderOk(t, id)
    ensures forall p :: p in s.payments ==> PaymentOk(t, p)
    ensures forall k :: k in s.keys ==> KeyOk(t, k)
    ensures forall k, id :: Places(s, k, id) ==> Places(t, k, id)
  {
    forall k | k in s.keys ensures KeyOk(t, k) { assert KeyOk(s, k); }
    forall id | id in s.orders ensures OrderOk(t, id) { assert OrderOk(s, id); }
    forall p | p in s.payments ensures PaymentOk(t, p) { assert PaymentOk(s, p); }
  }

  /** Growth that adds no order, no payment and no creating key keeps the tables right. */
  lemma GrowthInPlaceKeepsTables(s: State, t: State)
    requires TablesInv(s) && Grows(s, t)
    requires t.orders.Keys == s.orders.Keys && t.payments == s.payments
    requires forall k :: k in t.keys && k !in s.keys ==> k.operation != CreateOrder && KeyOk(t, k)
    ensures TablesInv(t)
  {
    GrowthKeepsRows(s, t);
    forall k, id | Places(t, k, id) ensures Places(s, k, id) { }
    forall id | id in t.orders ensures exists k :: Places(t, k, id) {
      var k :| Places(s, k, id);
      assert Places(t, k, id);
    }
  }

  lemma CommitCreateGrows(s: State, c: nat, id: nat, p: nat)
    requires Enabled(s, ExecuteCreate(c, id, p)) && s.calls[c].key !in s.keys
    ensures var t := CommitCreate(s, c, id, p);
      Grows(s, t) && t.orders.Keys == s.orders.Keys + {id} && t.keys.Keys == s.keys.Keys + {s.calls[c].key}
  {
  }

  lemma CommitCreateAddsRightRows(s: State, c: nat, id: nat, p: nat)
    requires Inv(s) && Enabled(s, ExecuteCreate(c, id, p)) && s.calls[c].key !in s.keys
    ensures var t := CommitCreate(s, c, id, p); var key := s.calls[c].key;
      && OrderOk(t, id) && KeyOk(t, key) && Places(t, key, id) && CallOk(t, t.calls[c])
      && (forall q :: q in t.payments && q !in s.payments ==> PaymentOk(t, q))
  {
    assert CallOk(s, s.calls[c]);
  }

  /** A new order and its new key pair up; no older key named the new order. */
  lemma AddedKeyKeepsOneKey(s: State, t: State, key: KeyId, id: nat)
    requires TablesInv(s) && Grows(s, t) && key !in s.keys && id !in s.orders && Places(t, key, id)
    requires t.orders.Keys == s.orders.Keys + {id} && t.keys.Keys == s.keys.Keys + {key}
    ensures OneKeyPerOrder(t)
  {
    assert forall k :: k in s.keys ==> KeyOk(s, k);
    forall k, i | Places(t, k, i) ensures Places(s, k, i) || (k == key && i == id) { }
    forall i | i in t.orders ensures exists k :: Places(t, k, i) {
      if i != id {
        var k :| Places(s, k, i);
        assert Places(t, k, i);
      }
    }
  }

  lemma CommitCreateKeepsTables(s: State, c: nat, id: nat, p: nat)
    requires Inv(s) && Enabled(s, ExecuteCreate(c, id, p)) && s.calls[c].key !in s.keys
    ensures TablesInv(CommitCreate(s, c, id, p)) &&
      CallOk(CommitCreate(s, c, id, p), CommitCreate(s, c, id, p).calls[c])
  {
    var t := CommitCreate(s, c, id, p);
    CommitCreateGrows(s, c, id, p);
    CommitCreateAddsRightRows(s, c, id, p);
    GrowthKeepsRows(s, t);
    AddedKeyKeepsOneKey(s, t, s.calls[c].key, id);
  }

  lemma CommitCaptureAddsRightRows(s: State, c: nat)
    requires Inv(s) && Enabled(s, ExecuteCapture(c)) && FoundPayment(s, s.calls[c].task.paymentId) &&
      s.calls[c].key !in s.keys
    ensures var t := CommitCapture(s, c);
      && Grows(s, t) && t.orders.Keys == s.orders.Keys && t.payments == s.payments
      && t.keys.Keys == s.keys.Keys + {s.calls[c].key} && s.calls[c].key.operation.CapturePayment?
      && KeyOk(t, s.calls[c].key) && CallOk(t, t.calls[c])
  {
    var p := s.calls[c].task.paymentId;
    assert CallOk(s, s.calls[c]) && PaymentOk(s, p);
    CaptureKeepsOrder(s.orders[s.payments[p]], s.calls[c].task.success);
  }

  lemma CommitCaptureKeepsTables(s: State, c: nat)
    requires Inv(s) && Enabled(s, ExecuteCapture(c)) && FoundPayment(s, s.calls[c].task.paymentId) &&
      s.calls[c].key !in s.keys
    ensures TablesInv(CommitCapture(s, c)) && CallOk(CommitCapture(s, c), CommitCapture(s, c).calls[c])
  {
    CommitCaptureAddsRightRows(s, c);
    GrowthInPlaceKeepsTables(s, CommitCapture(s, c));
  }

  lemma MoveKeepsTables(s: State, c: nat, phase: Phase)
    requires Inv(s) && c in s.calls && s.calls[c].Call? && (phase == Raced || phase.Refused?)
    ensures TablesInv(ToPhase(s, c, phase)) && CallOk(ToPhase(s, c, phase), ToPhase(s, c, phase).calls[c])
  {
    assert CallOk(s, s.calls[c]);
    GrowthInPlaceKeepsTables(s, ToPhase(s, c, phase));
  }

  lemma ExecuteCreateKeepsTables(s: State, c: nat, id: nat, p: nat)
    requires Inv(s) && Enabled(s, ExecuteCreate(c, id, p))
    ensures var t := Apply(s, ExecuteCreate(c, id, p));
      TablesInv(t) && c in t.calls && t.calls[c].Call? && CallOk(t, t.calls[c])
  {
    var call := s.calls[c];
    var refusal := CreateRefusal(call.task.quote, call.task.content.mode, call.task.content.customerValid, s.now);
    if refusal.Some? {
      MoveKeepsTables(s, c, Refused(OrderRefused(refusal.value)));
    } else if call.key in s.keys {
      MoveKeepsTables(s, c, Raced);
    } else {
      CommitCreateKeepsTables(s, c, id, p);
    }
  }

  lemma ExecuteCaptureKeepsTables(s: State, c: nat)
    requires Inv(s) && Enabled(s, ExecuteCapture(c))
    ensures var t := Apply(s, ExecuteCapture(c));
      TablesInv(t) && c in t.calls && t.calls[c].Call? && CallOk(t, t.calls[c])
  {
    var t := Apply(s, ExecuteCapture(c));
    if t.keys == s.keys && t.orders == s.orders {
      MoveKeepsTables(s, c, t.calls[c].phase);
    } else {
      CommitCaptureKeepsTables(s, c);
    }
  }

  lemma ExecuteKeepsTables(s: State, step: Step)
    requires Enabled(s, step) && Inv(s) && (step.ExecuteCreate? || step.ExecuteCapture?)
    ensures var t := Apply(s, step);
      TablesInv(t) && step.call in t.calls && t.calls[step.call].Call? && CallOk(t, t.calls[step.call])
  {
    match step
    case ExecuteCreate(c, id, p) => ExecuteCreateKeepsTables(s, c, id, p);
    case ExecuteCapture(c) => ExecuteCaptureKeepsTables(s, c);
  }

  lemma StepKeepsTables(s: State, step: Step)
    requires Enabled(s, step) && Inv(s)
    ensures TablesInv(Apply(s, step))
  {
    if step.ExecuteCreate? || step.ExecuteCapture? { ExecuteKeepsTables(s, step); }
    else {
      if step.Elsewhere? { ElsewhereGrows(s, step); } else if !step.Tick? { OtherStepsOnlyMoveCalls(s, step); }
      GrowthInPlaceKeepsTables(s, Apply(s, step));
    }
  }

  lemma GrowthKeepsCall(s: State, t: State, call: Call)
    requires Grows(s, t) && call.Call? && CallOk(s, call)
    ensures CallOk(t, call)
  {
  }

  /** The call a step is about. */
  function Mover(step: Step): Option<nat> { if step.Elsewhere? || step.Tick? then None else Some(step.call) }

  /** Each step changes the entry of its call only. */
  lemma OneCallMoves(s: State, step: Step)
    requires Enabled(s, step) && !step.ExecuteCreate? && !step.ExecuteCapture?
    ensures match Mover(step)
      case Some(d) => d in Apply(s, step).calls && Apply(s, step).calls == s.calls[d := Apply(s, step).calls[d]]
      case None => Apply(s, step).calls == s.calls
  {
  }

  lemma OneCallExecutes(s: State, step: Step)
    requires Enabled(s, step) && (step.ExecuteCreate? || step.ExecuteCapture?)
    ensures step.call in Apply(s, step).calls &&
      Apply(s, step).calls == s.calls[step.call := Apply(s, step).calls[step.call]]
  {
  }

  lemma OtherCallsStand(s: State, step: Step, c: nat)
    requires Enabled(s, step) && Mover(step) != Some(c)
    ensures c in Apply(s, step).calls <==> c in s.calls
    ensures c in s.calls ==> Apply(s, step).calls[c] == s.calls[c]
  {
    if step.ExecuteCreate? || step.ExecuteCapture? { OneCallExecutes(s, step); } else { OneCallMoves(s, step); }
  }

  lemma CreateStarts(s: State, c: nat, quote: Option<Quote>, content: Content, expected: Option<string>,
      key: Option<string>)
    requires Inv(s) && Enabled(s, Create(c, quote, content, expected, key))
    requires var t := Apply(s, Create(c, quote, content, expected, key)); c in t.calls && t.calls[c].Call?
    ensures var call := Apply(s, Create(c, quote, content, expected, key)).calls[c];
      CallOk(s, call) && call.phase == Reading
  {
  }

  lemma CompleteStarts(s: State, c: nat, p: nat, success: bool, token: Option<Token>, key: Option<string>)
    requires Inv(s) && Enabled(s, MockComplete(c, p, success, token, key))
    requires var t := Apply(s, MockComplete(c, p, success, token, key)); c in t.calls && t.calls[c].Call?
    ensures var call := Apply(s, MockComplete(c, p, success, token, key)).calls[c];
      CallOk(s, call) && call.phase == Reading
  {
    if FoundPayment(s, p) { assert PaymentOk(s, p); }
  }

  lemma ReadKeyIsOk(s: State, c: nat)
    requires Inv(s) && Enabled(s, ReadKey(c))
    ensures var t := Apply(s, ReadKey(c)); c in t.calls && t.calls[c].Call? && CallOk(s, t.calls[c])
  {
    assert CallOk(s, s.calls[c]);
  }

  lemma ReadAgainIsOk(s: State, c: nat)
    requires Inv(s) && Enabled(s, ReadAgain(c))
    ensures var t := Apply(s, ReadAgain(c)); c in t.calls && t.calls[c].Call? && CallOk(s, t.calls[c])
  {
    assert CallOk(s, s.calls[c]);
  }

  lemma ErrorIsOk(s: State, step: Step, c: nat)
    requires Inv(s) && Enabled(s, step) && (step.ExecuteConflict? || step.ExecuteError?)
    requires step.call == c && c in Apply(s, step).calls && Apply(s, step).calls[c].Call?
    ensures CallOk(s, Apply(s, step).calls[c])
  {
    assert CallOk(s, s.calls[c]);
  }

  lemma HydratedIsOk(s: State, c: nat)
    requires Inv(s) && Enabled(s, Hydrate(c))
    ensures var call := Apply(s, Hydrate(c)).calls[c]; call.Call? && CallOk(s, call) && call.phase.Replied?
  {
    var call := s.calls[c];
    assert CallOk(s, call) && KeyOk(s, call.key);
    if call.task.Complete? {
      assert PaymentOk(s, call.task.paymentId);
    } else {
      assert OrderOk(s, call.phase.pointer.orderId);
    }
  }

  lemma StepKeepsCalls(s: State, step: Step, c: nat)
    requires Enabled(s, step) && Inv(s)
    requires c in Apply(s, step).calls && Apply(s, step).calls[c].Call?
    ensures CallOk(Apply(s, step), Apply(s, step).calls[c])
  {
    var t := Apply(s, step);
    StepGrows(s, step);
    if Mover(step) != Some(c) {
      OtherCallsStand(s, step, c);
      GrowthKeepsCall(s, t, s.calls[c]);
    } else if step.ExecuteCreate? || step.ExecuteCapture? {
      ExecuteKeepsTables(s, step);
    } else {
      if step.Create? { CreateStarts(s, c, step.quote, step.content, step.expected, step.key); }
      else if step.MockComplete? { CompleteStarts(s, c, step.paymentId, step.success, step.token, step.key); }
      else if step.Hydrate? { HydratedIsOk(s, c); }
      else if step.ReadKey? { ReadKeyIsOk(s, c); }
      else if step.ReadAgain? { ReadAgainIsOk(s, c); }
      else { ErrorIsOk(s, step, c); }
      GrowthKeepsCall(s, t, t.calls[c]);
    }
  }

  lemma StepKeepsInv(s: State, step: Step)
    requires Enabled(s, step) && Inv(s)
    ensures Inv(Apply(s, step)) && Grows(s, Apply(s, step))
  {
    StepGrows(s, step);
    StepKeepsTables(s, step);
    var t := Apply(s, step);
    forall c | c in t.calls && t.calls[c].Call? ensures CallOk(t, t.calls[c]) { StepKeepsCalls(s, step, c); }
  }

  lemma GrowsTwice(s: State, t: State, u: State)
    requires Grows(s, t) && Grows(t, u)
    ensures Grows(s, u)
  {
  }

  lemma {:induction false} RunKeepsInv(s: State, steps: seq<Step>)
    requires Inv(s)
    ensures Inv(Run(s, steps)) && Grows(s, Run(s, steps))
    decreases |steps|
  {
    if steps != [] {
      var n := |steps| - 1;
      RunKeepsInv(s, steps[..n]);
      var before := Run(s, steps[..n]);
      if Enabled(before, steps[n]) {
        StepKeepsInv(before, steps[n]);
        GrowsTwice(s, before, Apply(before, steps[n]));
      }
    }
  }

  // ---- what callers may rely on

  /** In every interleaving the committed orders and the rows of creating keys pair up: each order was placed under
      exactly one key, and each key names one order, of its own merchant. */
  lemma {:induction false} OrdersPairWithKeys(steps: seq<Step>)
    ensures var s := Run(Initial, steps);
      && (forall id :: id in s.orders ==> exists k :: Places(s, k, id))
      && (forall k, l, id :: Places(s, k, id) && Places(s, l, id) ==> k == l)
      && (forall k :: k in s.keys && k.operation == CreateOrder ==>
            s.keys[k].pointer.OrderPointer? && s.keys[k].pointer.orderId in s.orders
            && s.orders[s.keys[k].pointer.orderId].merchantId == k.merchantId)
  {
    RunKeepsInv(Initial, steps);
    var s := Run(Initial, steps);
    forall k | k in s.keys && k.operation == CreateOrder
      ensures s.keys[k].pointer.OrderPointer? && s.keys[k].pointer.orderId in s.orders
      ensures s.orders[s.keys[k].pointer.orderId].merchantId == k.merchantId
    { assert KeyOk(s, k); }
  }

  predicate SameAnswer(a: Reply, b: Reply) {
    || (a.OrderReply? && b.OrderReply? && a.orderId == b.orderId && a.payment == b.payment && a.token == b.token)
    || (a.CaptureReply? && b.CaptureReply? && a.paymentId == b.paymentId && a.already == b.already)
  }

  predicate Successful(s: State, c: nat, k: KeyId) {
    c in s.calls && s.calls[c].Call? && s.calls[c].key == k && s.calls[c].phase.Replied?
  }

  /** All successful calls on one key sent the same request and got the same answer. */
  lemma {:induction false} SuccessfulCallsAgree(steps: seq<Step>, c: nat, d: nat, k: KeyId)
    requires Successful(Run(Initial, steps), c, k) && Successful(Run(Initial, steps), d, k)
    ensures var s := Run(Initial, steps);
      && HashOf(s.calls[c].task) == HashOf(s.calls[d].task)
      && SameAnswer(s.calls[c].phase.reply, s.calls[d].phase.reply)
  {
    RunKeepsInv(Initial, steps);
    var s := Run(Initial, steps);
    assert CallOk(s, s.calls[c]) && CallOk(s, s.calls[d]);
  }

  /** Once a key is committed, a call that sends something else under it never succeeds, whenever it came. */
  lemma {:induction false} OtherRequestNeverSucceeds(s: State, more: seq<Step>, c: nat, k: KeyId)
    requires Inv(s) && k in s.keys
    requires var u := Run(s, more); c in u.calls && u.calls[c].Call? && HashOf(u.calls[c].task) != s.keys[k].hash
    ensures !Successful(Run(s, more), c, k)
  {
    RunKeepsInv(s, more);
    assert CallOk(Run(s, more), Run(s, more).calls[c]);
  }

  /** How a call that came after the commit of its key can stand. It never executes. */
  predicate Replays(s: State, call: Call)
    requires call.Call? && call.key in s.keys
  {
    match call.phase
    case Reading => true
    case Hydrating(_) => Holds(s, call)
    case Replied(r) => Holds(s, call) && Answers(r, s.keys[call.key].pointer)
    case Refused(e) => !Holds(s, call) && e == KeyConflict
    case _ => false
  }

  /** A call that comes after its key was committed is answered from the key's row, or refused as a conflict
      exactly when it sends something else: also when the quote has expired by then, or the order has moved on. */
  lemma {:induction false} LaterCallsReplay(s: State, more: seq<Step>, c: nat)
    requires Inv(s) && c !in s.calls
    requires var u := Run(s, more); c in u.calls && u.calls[c].Call? && u.calls[c].key in s.keys
    ensures Grows(s, Run(s, more)) && Replays(Run(s, more), Run(s, more).calls[c])
    decreases |more|
  {
    RunKeepsInv(s, more);
    if more != [] {
      var n := |more| - 1;
      var t := Run(s, more[..n]);
      RunKeepsInv(s, more[..n]);
      CallsKeepTheirKey(t, more[n], c);
      if c in t.calls {
        LaterCallsReplay(s, more[..n], c);
        ReplayGoesOn(t, more[n], c);
      }
    }
  }

  lemma ReplayGoesOn(s: State, step: Step, c: nat)
    requires Inv(s) && c in s.calls && s.calls[c].Call? && s.calls[c].key in s.keys && Replays(s, s.calls[c])
    ensures var t := Next(s, step);
      c in t.calls && t.calls[c].Call? && t.calls[c].key in t.keys && Replays(t, t.calls[c])
  {
    if !Enabled(s, step) {
      assert Next(s, step) == s;
    } else if Mover(step) == Some(c) {
      ReplayStep(s, step);
    } else {
      ReplayStands(s, step, c);
    }
  }

  lemma ReplayStands(s: State, step: Step, c: nat)
    requires Enabled(s, step) && Mover(step) != Some(c)
    requires c in s.calls && s.calls[c].Call? && s.calls[c].key in s.keys && Replays(s, s.calls[c])
    ensures var t := Apply(s, step);
      c in t.calls && t.calls[c] == s.calls[c] && t.calls[c].key in t.keys && Replays(t, t.calls[c])
  {
    OtherCallsStand(s, step, c);
    KeyStays(s, step, s.calls[c].key);
  }

  lemma KeyStays(s: State, step: Step, k: KeyId)
    requires Enabled(s, step) && k in s.keys
    ensures k in Apply(s, step).keys && Apply(s, step).keys[k] == s.keys[k]
  {
    StepGrows(s, step);
  }

  lemma CallsKeepTheirKey(s: State, step: Step, c: nat)
    ensures c in s.calls ==> c in Next(s, step).calls && Next(s, step).calls[c].Call? == s.calls[c].Call?
    ensures c in s.calls && s.calls[c].Call? ==>
      Next(s, step).calls[c].key == s.calls[c].key && Next(s, step).calls[c].task == s.calls[c].task
    ensures c !in s.calls && c in Next(s, step).calls && Next(s, step).calls[c].Call? ==>
      Next(s, step).calls[c].phase == Reading
  {
    if Enabled(s, step) && Mover(step) != Some(c) { OtherCallsStand(s, step, c); }
  }

  lemma ReplayStep(s: State, step: Step)
    requires Inv(s) && Enabled(s, step) && Mover(step).Some? && step.call in s.calls
    requires var call := s.calls[step.call]; call.Call? && call.key in s.keys && Replays(s, call)
    ensures var t := Apply(s, step); var call := t.calls[step.call];
      call.Call? && call.key == s.calls[step.call].key && call.key in t.keys && Replays(t, call)
  {
    assert CallOk(s, s.calls[step.call]);
    if step.Hydrate? { HydratedIsOk(s, step.call); }
  }

  // ---- a call that read its key too early

  /** How far a call is that collided on a key with its own request hash. */
  function Progress(s: State, c: nat): nat
    requires c in s.calls && s.calls[c].Call?
  {
    match s.calls[c].phase
    case Raced => 1
    case Hydrating(_) => 2
    case Replied(_) => 3
    case _ => 0
  }

  predicate Racing(s: State, c: nat) { c in s.calls && s.calls[c].Call? && Holds(s, s.calls[c]) && Progress(s, c) >= 1 }

  lemma RacerOwnSteps(s: State, step: Step, c: nat)
    requires Racing(s, c) && Enabled(s, step) && Mover(step) == Some(c)
    ensures (step == ReadAgain(c) && Progress(s, c) == 1) || (step == Hydrate(c) && Progress(s, c) == 2)
  {
  }

  /** Only the call's entry changes, by its phase. */
  ghost predicate Rephased(s: State, t: State, c: nat, progress: nat) {
    && c in s.calls && s.calls[c].Call? && c in t.calls && t.calls[c].Call?
    && t.keys == s.keys && t.calls[c].key == s.calls[c].key && t.calls[c].task == s.calls[c].task
    && Progress(t, c) == progress
  }

  lemma ReadAgainMoves(s: State, c: nat)
    requires Racing(s, c) && Progress(s, c) == 1
    ensures Rephased(s, Next(s, ReadAgain(c)), c, 2)
  {
  }

  lemma HydrateMoves(s: State, c: nat)
    requires Inv(s) && Racing(s, c) && Progress(s, c) == 2
    ensures Rephased(s, Next(s, Hydrate(c)), c, 3)
  {
    HydratedIsOk(s, c);
  }

  /** What a step does to a racer: no step sets it back, and its own steps bring it on. */
  ghost predicate Advanced(s: State, step: Step, t: State, c: nat)
    requires Racing(s, c)
  {
    && Racing(t, c) && t.calls[c].key == s.calls[c].key && t.calls[c].task == s.calls[c].task
    && Progress(t, c) >= Progress(s, c)
    && (step == ReadAgain(c) ==> Progress(t, c) >= 2)
    && (step == Hydrate(c) && Progress(s, c) >= 2 ==> Progress(t, c) == 3)
  }

  lemma RacerAdvances(s: State, step: Step, c: nat)
    requires Inv(s) && Racing(s, c)
    ensures Advanced(s, step, Next(s, step), c)
  {
    if !Enabled(s, step) {
      assert Next(s, step) == s;
    } else if Mover(step) == Some(c) {
      RacerOwnSteps(s, step, c);
      if step == ReadAgain(c) { ReadAgainMoves(s, c); } else { HydrateMoves(s, c); }
    } else {
      RacerStands(s, step, c);
    }
  }

  lemma RacerStands(s: State, step: Step, c: nat)
    requires Racing(s, c) && Enabled(s, step) && Mover(step) != Some(c)
    ensures Advanced(s, step, Apply(s, step), c)
  {
    OtherCallsStand(s, step, c);
    KeyStays(s, step, s.calls[c].key);
  }

  lemma {:induction false} RacerGoesOn(s: State, steps: seq<Step>, c: nat)
    requires Inv(s) && Racing(s, c)
    ensures var t := Run(s, steps);
      && Inv(t) && Grows(s, t) && Racing(t, c) && Progress(t, c) >= Progress(s, c)
      && t.calls[c].key == s.calls[c].key && t.calls[c].task == s.calls[c].task
    decreases |steps|
  {
    RunKeepsInv(s, steps);
    if steps != [] {
      var n := |steps| - 1;
      RacerGoesOn(s, steps[..n], c);
      RacerAdvances(Run(s, steps[..n]), steps[n], c);
    }
  }

  /** A call that has its answer keeps it. */
  lemma {:induction false} AnsweredForEver(s: State, steps: seq<Step>, c: nat)
    requires c in s.calls && s.calls[c].Call? && (s.calls[c].phase.Refused? || s.calls[c].phase.Replied?)
    ensures c in Run(s, steps).calls && Run(s, steps).calls[c] == s.calls[c]
    decreases |steps|
  {
    if steps != [] {
      var n := |steps| - 1;
      AnsweredForEver(s, steps[..n], c);
      var t := Run(s, steps[..n]);
      if Enabled(t, steps[n]) && Mover(steps[n]) != Some(c) { OtherCallsStand(t, steps[n], c); }
    }
  }

  lemma {:induction false} RunConcat(s: State, a: seq<Step>, b: seq<Step>)
    ensures Run(s, a + b) == Run(Run(s, a), b)
    decreases |b|
  {
    if b == [] {
      assert a + b == a;
    } else {
      var n := |b| - 1;
      RunConcat(s, a, b[..n]);
      var whole := a + b;
      assert whole[..|whole| - 1] == a + b[..n] && whole[|whole| - 1] == b[n];
    }
  }

  lemma RunThen(s: State, step: Step, more: seq<Step>)
    ensures Run(s, [step] + more) == Run(Next(s, step), more)
  {
    RunConcat(s, [step], more);
    assert [step][..0] == [];
  }

  /** An order can be placed now: the quote has not expired, offers the mode, and the customer's fields are valid. */
  predicate OpenTo(s: State, task: Task)
    requires task.PlaceOrder?
  {
    && s.now < task.quote.expiresAt
    && OptionFor(task.quote.options, task.content.mode).available
    && task.content.customerValid
  }

  lemma OpenIffNotRefused(s: State, task: Task)
    requires task.PlaceOrder?
    ensures OpenTo(s, task) <==>
      CreateRefusal(task.quote, task.content.mode, task.content.customerValid, s.now).None?
  {
  }

  lemma OnlyPhaseMoves(s: State, c: nat, id: nat, p: nat)
    requires Enabled(s, ExecuteCreate(c, id, p)) && s.calls[c].key in s.keys
    ensures Next(s, ExecuteCreate(c, id, p)) == ToPhase(s, c, Next(s, ExecuteCreate(c, id, p)).calls[c].phase)
    ensures var t := Next(s, ExecuteCreate(c, id, p));
      if OpenTo(s, s.calls[c].task) then t.calls[c].phase == Raced else t.calls[c].phase.Refused?
  {
    OpenIffNotRefused(s, s.calls[c].task);
  }

  lemma ExecuteOnTakenKey(s: State, c: nat, id: nat, p: nat)
    requires Inv(s) && Enabled(s, ExecuteCreate(c, id, p)) && Holds(s, s.calls[c])
    ensures var t := Next(s, ExecuteCreate(c, id, p));
      && t == s.(calls := t.calls) && c in t.calls && Inv(t)
      && t.calls[c].Call? && t.calls[c].key == s.calls[c].key && t.calls[c].task == s.calls[c].task
      && (if OpenTo(s, s.calls[c].task) then t.calls[c].phase == Raced else t.calls[c].phase.Refused?)
  {
    OnlyPhaseMoves(s, c, id, p);
    StepKeepsInv(s, ExecuteCreate(c, id, p));
  }

  /** The racer's key still has the row it had. */
  predicate SameRow(s: State, t: State, c: nat)
    requires Racing(s, c)
  {
    Racing(t, c) && t.calls[c].key == s.calls[c].key && t.keys[t.calls[c].key] == s.keys[s.calls[c].key]
  }

  lemma RacerRereads(s: State, before: seq<Step>, c: nat)
    requires Inv(s) && Racing(s, c)
    ensures var t := Run(s, before + [ReadAgain(c)]); Inv(t) && SameRow(s, t, c) && Progress(t, c) >= 2
  {
    RacerGoesOn(s, before, c);
    RacerAdvances(Run(s, before), ReadAgain(c), c);
    RunKeepsInv(s, before + [ReadAgain(c)]);
    assert (before + [ReadAgain(c)])[..|before|] == before;
  }

  lemma RacerHydrates(s: State, before: seq<Step>, c: nat)
    requires Inv(s) && Racing(s, c) && Progress(s, c) >= 2
    ensures var t := Run(s, before + [Hydrate(c)]); Inv(t) && SameRow(s, t, c) && Progress(t, c) == 3
  {
    RacerGoesOn(s, before, c);
    RacerAdvances(Run(s, before), Hydrate(c), c);
    RunKeepsInv(s, before + [Hydrate(c)]);
    assert (before + [Hydrate(c)])[..|before|] == before;
  }

  lemma DoneIsSuccessful(s: State, c: nat)
    requires Inv(s) && Racing(s, c) && Progress(s, c) == 3
    ensures Successful(s, c, s.calls[c].key) && Answers(s.calls[c].phase.reply, s.keys[s.calls[c].key].pointer)
  {
    assert CallOk(s, s.calls[c]);
  }

  lemma RacerIsDone(s: State, c: nat, after: seq<Step>)
    requires Inv(s) && Racing(s, c) && Progress(s, c) == 3
    ensures var u := Run(s, after); var k := s.calls[c].key;
      Successful(u, c, k) && Answers(u.calls[c].phase.reply, s.keys[k].pointer)
  {
    DoneIsSuccessful(s, c);
    AnsweredForEver(s, after, c);
  }

  /** A collided call that reads again and hydrates, whatever happens between and after, has replayed the row. */
  lemma RacerReplays(s: State, c: nat, a: seq<Step>, b: seq<Step>, after: seq<Step>)
    requires Inv(s) && Racing(s, c)
    ensures var u := Run(s, (a + [ReadAgain(c)]) + ((b + [Hydrate(c)]) + after)); var k := s.calls[c].key;
      Successful(u, c, k) && Answers(u.calls[c].phase.reply, s.keys[k].pointer)
  {
    var x, y := a + [ReadAgain(c)], b + [Hydrate(c)];
    RacerRereads(s, a, c);
    var t := Run(s, x);
    RunConcat(s, x, y + after);
    HydratedRacerIsDone(t, c, b, after);
  }

  lemma HydratedRacerIsDone(s: State, c: nat, b: seq<Step>, after: seq<Step>)
    requires Inv(s) && Racing(s, c) && Progress(s, c) >= 2
    ensures var u := Run(s, (b + [Hydrate(c)]) + after); var k := s.calls[c].key;
      Successful(u, c, k) && Answers(u.calls[c].phase.reply, s.keys[k].pointer)
  {
    var y := b + [Hydrate(c)];
    RacerHydrates(s, b, c);
    RunConcat(s, y, after);
    RacerIsDone(Run(s, y), c, after);
  }

  /** A call that read its key before the commit, then executes, reads again and hydrates with anything in between: it
      replays what was committed exactly when its own request could still be executed at its transaction. When the quote
      expires before, it is refused for good, although the key is there. */
  lemma RacerReplaysIff(s: State, c: nat, id: nat, p: nat, a: seq<Step>, b: seq<Step>, after: seq<Step>)
    requires Inv(s) && Enabled(s, ExecuteCreate(c, id, p)) && Holds(s, s.calls[c])
    ensures var u := Run(s, [ExecuteCreate(c, id, p)] + ((a + [ReadAgain(c)]) + ((b + [Hydrate(c)]) + after)));
      && (Successful(u, c, s.calls[c].key) <==> OpenTo(s, s.calls[c].task))
      && (Successful(u, c, s.calls[c].key) ==> Answers(u.calls[c].phase.reply, s.keys[s.calls[c].key].pointer))
  {
    var rest := (a + [ReadAgain(c)]) + ((b + [Hydrate(c)]) + after);
    var t := Next(s, ExecuteCreate(c, id, p));
    RunThen(s, ExecuteCreate(c, id, p), rest);
    ExecuteOnTakenKey(s, c, id, p);
    if OpenTo(s, s.calls[c].task) {
      RacerReplays(t, c, a, b, after);
    } else {
      AnsweredForEver(t, rest, c);
    }
  }

  /** The completion of a payment on a key that is taken. */
  lemma CaptureOnTakenKey(s: State, c: nat)
    requires Inv(s) && Enabled(s, ExecuteCapture(c)) && Holds(s, s.calls[c])
    ensures FoundPayment(s, s.calls[c].task.paymentId)
    ensures var t := Next(s, ExecuteCapture(c));
      && t == s.(calls := t.calls) && c in t.calls && Inv(t)
      && t.calls[c].Call? && t.calls[c].key == s.calls[c].key && t.calls[c].task == s.calls[c].task
      && (if Completes(s, s.calls[c].task) then t.calls[c].phase == Raced else t.calls[c].phase == Refused(Internal))
  {
    assert CallOk(s, s.calls[c]) && PaymentOk(s, s.calls[c].task.paymentId);
    StepKeepsInv(s, ExecuteCapture(c));
  }

  /** The completion would not repeat an event of the payment. */
  predicate Completes(s: State, task: Task)
    requires task.Complete?
  {
    FoundPayment(s, task.paymentId) ==> !Aborts(s.orders[s.payments[task.paymentId]], task.success)
  }

  /** The same for a call that completes a payment: it replays exactly when its completion repeats no event of its
      payment. So a call that races a failed completion on its own key gets a 500, not the replay. */
  lemma CaptureRacerReplaysIff(s: State, c: nat, a: seq<Step>, b: seq<Step>, after: seq<Step>)
    requires Inv(s) && Enabled(s, ExecuteCapture(c)) && Holds(s, s.calls[c])
    ensures FoundPayment(s, s.calls[c].task.paymentId)
    ensures var u := Run(s, [ExecuteCapture(c)] + ((a + [ReadAgain(c)]) + ((b + [Hydrate(c)]) + after)));
      && (Successful(u, c, s.calls[c].key) <==>
            !Aborts(s.orders[s.payments[s.calls[c].task.paymentId]], s.calls[c].task.success))
      && (Successful(u, c, s.calls[c].key) ==> Answers(u.calls[c].phase.reply, s.keys[s.calls[c].key].pointer))
  {
    var rest := (a + [ReadAgain(c)]) + ((b + [Hydrate(c)]) + after);
    var t := Next(s, ExecuteCapture(c));
    RunThen(s, ExecuteCapture(c), rest);
    CaptureOnTakenKey(s, c);
    if Completes(s, s.calls[c].task) {
      RacerReplays(t, c, a, b, after);
    } else {
      AnsweredForEver(t, rest, c);
    }
  }

  /** A successful creation answers with an order that was placed for the asked quote and mode, and with a token that
      opens this order and no other. */
  lemma {:induction false} TokenOpensItsOrder(steps: seq<Step>, c: nat)
    requires var s := Run(Initial, steps);
      c in s.calls && s.calls[c].Call? && s.calls[c].phase.Replied? && s.calls[c].task.PlaceOrder?
    ensures var s := Run(Initial, steps); var reply, task := s.calls[c].phase.reply, s.calls[c].task;
      && reply.OrderReply? && reply.orderId in s.orders
      && s.orders[reply.orderId].quoteId == task.content.quoteId && s.orders[reply.orderId].mode == task.content.mode
      && s.orders[reply.orderId].merchantId == task.quote.merchantId
      && forall id :: id in s.orders ==> (Opens(Some(reply.token), s.orders[id]) <==> id == reply.orderId)
  {
    RunKeepsInv(Initial, steps);
    var s := Run(Initial, steps);
    assert CallOk(s, s.calls[c]) && KeyOk(s, s.calls[c].key);
    forall id | id in s.orders
      ensures Opens(Some(s.calls[c].phase.reply.token), s.orders[id]) <==> id == s.calls[c].phase.reply.orderId
    {
      assert OrderOk(s, id) && OrderOk(s, s.calls[c].phase.reply.orderId);
    }
  }
}
