/** `logCommunication` and the monthly cap of a repeat buyer, await by await (`autopilot.service.ts`).

    A log call looks for its key, creates its row, counts it in the day's ledger and meters it; none of the four is in a
    transaction with another. A cap is checked and later reserved. The steps of any number of calls interleave, and a
    call may stop between any two. */
module CommunicationRace {
  import opened Base
  import opened CommunicationLog

  datatype Phase =
    | Looking
    | Creating            // nothing was found
    | Counting            // its row is created, the day's ledger is next
    | Metering            // counted, the meter is next
    | Wrote               // returned the row it created
    | Found(row: LogRow)  // returned the row that was there
    | Collided            // the unique index refused its row

  /** `row` is what the call wants to log, under the key made for it. */
  datatype Call = Call(row: LogRow, phase: Phase)

  /** `checked` calls have seen a cap with room and have not reserved yet. */
  datatype Race = Race(tables: State, calls: map<nat, Call>, checked: map<nat, LedgerKey>)

  const Start := Race(Initial, map[], map[])

  datatype Step =
    | Begin(c: nat, row: LogRow)
    | Find(c: nat)
    | Create(c: nat)
    | CountDay(c: nat)
    | Meter(c: nat)
    | Check(c: nat, key: LedgerKey, cap: nat)
    | Reserve(c: nat)
    | Skip(c: nat)            // the plan goes no further after its check
    | Execute(meter: UsageKey)  // another meter

  predicate At(r: Race, c: nat, phase: Phase) { c in r.calls && r.calls[c].phase == phase }

  function Waiting(checked: map<nat, LedgerKey>, key: LedgerKey): set<nat> { set c | c in checked && checked[c] == key }

  /** On each key, which is one buyer's month on one channel, at most `width` calls are between a check and its
      reservation. A dispatch checks EMAIL and WHATSAPP, which are two keys, before it reserves either. */
  predicate Enabled(width: nat, r: Race, step: Step) {
    match step
    case Begin(c, _) => c !in r.calls
    case Find(c) => At(r, c, Looking)
    case Create(c) => At(r, c, Creating)
    case CountDay(c) => At(r, c, Counting)
    case Meter(c) => At(r, c, Metering)
    case Check(c, key, _) => c !in r.checked && |Waiting(r.checked, key)| < width && key.window.ByMonth?
    case Reserve(c) => c in r.checked
    case Skip(c) => c in r.checked
    case Execute(meter) => meter.usage == N8nExecution
  }

  function To(r: Race, c: nat, phase: Phase): Race
    requires c in r.calls
  {
    r.(calls := r.calls[c := r.calls[c].(phase := phase)])
  }

  function Checked(r: Race, c: nat, key: LedgerKey, cap: nat): Race {
    if Count(r.tables.ledger, key) < cap then r.(checked := r.checked[c := key]) else r
  }

  function Apply(width: nat, r: Race, step: Step): Race
    requires Enabled(width, r, step)
  {
    var t := r.tables;
    match step
    case Begin(c, row) => r.(calls := r.calls[c := Call(row, Looking)])
    case Find(c) =>
      var existing := FindLog(t.logs, r.calls[c].row.merchantId, r.calls[c].row.key);
      To(r, c, if existing.Some? then Found(existing.value) else Creating)
    case Create(c) =>
      var row := r.calls[c].row;
      if FindLog(t.logs, row.merchantId, row.key).Some? then To(r, c, Collided)
      else To(r.(tables := t.(logs := t.logs + [row])), c, Counting)
    case CountDay(c) => To(r.(tables := t.(ledger := Bump(t.ledger, RowLedgerKey(r.calls[c].row)))), c, Metering)
    case Meter(c) => To(r.(tables := t.(usage := Bump(t.usage, RowUsageKey(r.calls[c].row)))), c, Wrote)
    case Check(c, key, cap) => Checked(r, c, key, cap)
    case Reserve(c) => r.(tables := t.(ledger := Bump(t.ledger, r.checked[c])), checked := r.checked - {c})
    case Skip(c) => r.(checked := r.checked - {c})
    case Execute(meter) => r.(tables := t.(usage := Bump(t.usage, meter)))
  }

  function Next(width: nat, r: Race, step: Step): Race { if Enabled(width, r, step) then Apply(width, r, step) else r }

  function Run(width: nat, r: Race, steps: seq<Step>): Race {
    if steps == [] then r else var n := |steps| - 1; Next(width, Run(width, r, steps[..n]), steps[n])
  }

  // ---- the calls

  /** The tables, and the log calls in flight. Each method is one await. */
  class LogCalls {
    var logs: seq<LogRow>
    var ledger: map<LedgerKey, nat>
    var usage: map<UsageKey, nat>
    var calls: map<nat, Call>
    var checked: map<nat, LedgerKey>

    ghost function Abstract(): Race
      reads this
    {
      Race(State(logs, ledger, usage), calls, checked)
    }

    constructor ()
      ensures Abstract() == Start
    {
      logs, ledger, usage, calls, checked := [], map[], map[], map[], map[];
    }

    method SetPhase(c: nat, phase: Phase)
      requires c in calls
      modifies this`calls
      ensures Abstract() == To(old(Abstract()), c, phase)
    {
      calls := calls[c := calls[c].(phase := phase)];
    }

    method LogCommunication(c: nat, input: Input, today: Day)
      requires c !in calls
      modifies this`calls
      ensures Abstract() == Apply(0, old(Abstract()), Begin(c, LogRow(input.merchantId, MakeKey(input), input, today)))
    {
      calls := calls[c := Call(LogRow(input.merchantId, MakeKey(input), input, today), Looking)];
    }

    method FindFirst(c: nat)
      requires Enabled(0, Abstract(), Find(c))
      modifies this`calls
      ensures Abstract() == Apply(0, old(Abstract()), Find(c))
    {
      var existing := FindLog(logs, calls[c].row.merchantId, calls[c].row.key);
      if existing.Some? {
        SetPhase(c, Found(existing.value));
      } else {
        SetPhase(c, Creating);
      }
    }

    method CreateRow(c: nat)
      requires Enabled(0, Abstract(), Create(c))
      modifies this
      ensures Abstract() == Apply(0, old(Abstract()), Create(c))
    {
      var row := calls[c].row;
      if FindLog(logs, row.merchantId, row.key).Some? {
        SetPhase(c, Collided);
      } else {
        logs := logs + [row];
        SetPhase(c, Counting);
      }
    }

    method UpsertLedger(c: nat)
      requires Enabled(0, Abstract(), CountDay(c))
      modifies this
      ensures Abstract() == Apply(0, old(Abstract()), CountDay(c))
    {
      ledger := Bump(ledger, RowLedgerKey(calls[c].row));
      SetPhase(c, Metering);
    }

    method RecordUsage(c: nat)
      requires Enabled(0, Abstract(), Meter(c))
      modifies this
      ensures Abstract() == Apply(0, old(Abstract()), Meter(c))
    {
      usage := Bump(usage, RowUsageKey(calls[c].row));
      SetPhase(c, Wrote);
    }

    method CheckMonthlyFrequency(c: nat, merchantId: string, buyerId: string, channel: string, cap: nat, today: Day)
      returns (allowed: bool)
      requires c !in checked
      modifies this`checked
      ensures var key := ReserveKey(merchantId, buyerId, channel, MonthOf(today));
        Abstract() == Checked(old(Abstract()), c, key, cap) && (allowed <==> Count(ledger, key) < cap)
    {
      var key := ReserveKey(merchantId, buyerId, channel, MonthOf(today));
      allowed := Count(ledger, key) < cap;
      if allowed {
        checked := checked[c := key];
      }
    }

    method ReserveMonthlyFrequency(c: nat)
      requires Enabled(0, Abstract(), Step.Reserve(c))
      modifies this
      ensures Abstract() == Apply(0, old(Abstract()), Step.Reserve(c))
    {
      ledger := Bump(ledger, checked[c]);
      checked := checked - {c};
    }
  }

  // ---- rows and counters

  /** The call created a row. */
  predicate Writer(r: Race, c: nat) {
    c in r.calls && (r.calls[c].phase.Counting? || r.calls[c].phase.Metering? || r.calls[c].phase.Wrote?)
  }

  /** The calls of a kind. */
  function Having(calls: map<nat, Call>, kind: Call -> bool): set<nat> { set c | c in calls && kind(calls[c]) }

  /** Created, and not counted in the cell of the day's ledger yet. */
  function Uncounted(k: LedgerKey): Call -> bool { (call: Call) => call.phase.Counting? && OfDay(call.row, k) }

  predicate InBetween(call: Call) { call.phase.Counting? || call.phase.Metering? }

  /** Created, and not metered in the cell yet. */
  function Unmetered(k: UsageKey): Call -> bool { (call: Call) => InBetween(call) && Metered(call.row, k) }

  predicate DayCounts(r: Race, k: LedgerKey) {
    Count(r.tables.ledger, k) + |Having(r.calls, Uncounted(k))| == CountLedger(r.tables.logs, k)
  }

  predicate MeterCounts(r: Race, k: UsageKey) {
    Count(r.tables.usage, k) + |Having(r.calls, Unmetered(k))| == CountUsage(r.tables.logs, k)
  }

  ghost predicate CountersCount(r: Race) {
    && (forall k: LedgerKey :: k.window.ByDay? ==> DayCounts(r, k))
    && (forall k: UsageKey :: k.usage != N8nExecution ==> MeterCounts(r, k))
    && (forall c :: c in r.checked ==> r.checked[c].window.ByMonth?)
  }

  predicate Wants(r: Race, c: nat, row: LogRow) { Writer(r, c) && r.calls[c].row == row }

  predicate SameKey(a: LogRow, b: LogRow) { a.merchantId == b.merchantId && a.key == b.key }

  /** Every row has one writer, and what calls return is a row of their key. */
  ghost predicate RowsAreOwned(r: Race) {
    && UniqueKeys(r.tables.logs)
    && (forall row :: row in r.tables.logs ==> exists c :: Wants(r, c, row))
    && (forall c :: Writer(r, c) ==> r.calls[c].row in r.tables.logs)
    && (forall c, d :: Writer(r, c) && Writer(r, d) && SameKey(r.calls[c].row, r.calls[d].row) ==> c == d)
    && (forall c :: c in r.calls && r.calls[c].phase.Found? ==>
          r.calls[c].phase.row in r.tables.logs && SameKey(r.calls[c].phase.row, r.calls[c].row))
  }

  ghost predicate RaceInv(r: Race) { RowsAreOwned(r) && CountersCount(r) }

  lemma HavingIs(calls: map<nat, Call>, c: nat, call: Call, kind: Call -> bool)
    ensures Having(calls[c := call], kind) == Having(calls, kind) - {c} + if kind(call) then {c} else {}
  {
  }

  lemma Replaced(had: set<nat>, c: nat, added: bool)
    ensures |had - {c} + if added then {c} else {}| == |had| - (if c in had then 1 else 0) + (if added then 1 else 0)
  {
    assert |had - {c}| == |had| - (if c in had then 1 else 0);
    assert c !in had - {c};
    assert had - {c} + {} == had - {c};
  }

  lemma HavingMoves(calls: map<nat, Call>, c: nat, call: Call, kind: Call -> bool)
    ensures |Having(calls[c := call], kind)| ==
      |Having(calls, kind)| - (if c in calls && kind(calls[c]) then 1 else 0) + (if kind(call) then 1 else 0)
  {
    HavingIs(calls, c, call, kind);
    Replaced(Having(calls, kind), c, kind(call));
  }

  /** The steps that move one call and write no counted table. */
  predicate Idle(step: Step) { step.Begin? || step.Find? }

  lemma IdleStepMoves(width: nat, r: Race, step: Step) returns (call: Call)
    requires Enabled(width, r, step) && Idle(step)
    ensures Apply(width, r, step) == r.(calls := r.calls[step.c := call])
    ensures !InBetween(call) && (step.c in r.calls ==> !InBetween(r.calls[step.c]))
  {
    call := Apply(width, r, step).calls[step.c];
  }

  lemma DayKeeps(width: nat, r: Race, step: Step, k: LedgerKey)
    requires CountersCount(r) && Enabled(width, r, step) && k.window.ByDay?
    ensures DayCounts(Apply(width, r, step), k)
  {
    assert DayCounts(r, k);
    match step
    case Create(c) => DayKeepsCreate(r, c, k);
    case CountDay(c) =>
      CellsOfRow(r.calls[c].row);
      HavingMoves(r.calls, c, r.calls[c].(phase := Metering), Uncounted(k));
    case Meter(c) => HavingMoves(r.calls, c, r.calls[c].(phase := Wrote), Uncounted(k));
    case Begin(c, _) =>
      var call := IdleStepMoves(width, r, step);
      HavingMoves(r.calls, c, call, Uncounted(k));
    case Find(c) =>
      var call := IdleStepMoves(width, r, step);
      HavingMoves(r.calls, c, call, Uncounted(k));
    case _ =>
  }

  lemma DayKeepsCreate(r: Race, c: nat, k: LedgerKey)
    requires DayCounts(r, k) && At(r, c, Creating)
    ensures DayCounts(Apply(0, r, Create(c)), k)
  {
    var t, row := Apply(0, r, Create(c)), r.calls[c].row;
    HavingMoves(r.calls, c, t.calls[c], Uncounted(k));
    assert (r.tables.logs + [row])[..|r.tables.logs|] == r.tables.logs;
  }

  lemma MeterKeeps(width: nat, r: Race, step: Step, k: UsageKey)
    requires CountersCount(r) && Enabled(width, r, step) && k.usage != N8nExecution
    ensures MeterCounts(Apply(width, r, step), k)
  {
    assert MeterCounts(r, k);
    match step
    case Create(c) => MeterKeepsCreate(r, c, k);
    case CountDay(c) => HavingMoves(r.calls, c, r.calls[c].(phase := Metering), Unmetered(k));
    case Meter(c) =>
      CellsOfRow(r.calls[c].row);
      HavingMoves(r.calls, c, r.calls[c].(phase := Wrote), Unmetered(k));
    case Begin(c, _) =>
      var call := IdleStepMoves(width, r, step);
      HavingMoves(r.calls, c, call, Unmetered(k));
    case Find(c) =>
      var call := IdleStepMoves(width, r, step);
      HavingMoves(r.calls, c, call, Unmetered(k));
    case _ =>
  }

  lemma MeterKeepsCreate(r: Race, c: nat, k: UsageKey)
    requires MeterCounts(r, k) && At(r, c, Creating)
    ensures MeterCounts(Apply(0, r, Create(c)), k)
  {
    var t, row := Apply(0, r, Create(c)), r.calls[c].row;
    HavingMoves(r.calls, c, t.calls[c], Unmetered(k));
    assert (r.tables.logs + [row])[..|r.tables.logs|] == r.tables.logs;
  }

  lemma StepKeepsCounters(width: nat, r: Race, step: Step)
    requires CountersCount(r) && Enabled(width, r, step)
    ensures CountersCount(Apply(width, r, step))
  {
    forall k: LedgerKey | k.window.ByDay? ensures DayCounts(Apply(width, r, step), k) { DayKeeps(width, r, step, k); }
    forall k: UsageKey | k.usage != N8nExecution ensures MeterCounts(Apply(width, r, step), k) {
      MeterKeeps(width, r, step, k);
    }
  }

  lemma FreshRowIsUnique(logs: seq<LogRow>, row: LogRow)
    requires UniqueKeys(logs) && FindLog(logs, row.merchantId, row.key).None?
    ensures UniqueKeys(logs + [row]) && forall x :: x in logs ==> !SameKey(x, row)
  {
    FindLogFinds(logs, row.merchantId, row.key);
  }

  /** The race after the call created its row. */
  ghost predicate Created(r: Race, t: Race, c: nat, row: LogRow) {
    && t.tables.logs == r.tables.logs + [row]
    && c in r.calls && r.calls[c].row == row && r.calls[c].phase.Creating?
    && t.calls == r.calls[c := Call(row, Counting)]
  }

  lemma CreateAddsWriter(r: Race, t: Race, c: nat, row: LogRow)
    requires Created(r, t, c, row)
    ensures Wants(t, c, row)
    ensures forall d :: Writer(t, d) <==> Writer(r, d) || d == c
    ensures forall d, x :: Wants(r, d, x) ==> Wants(t, d, x)
  {
  }

  lemma CreateKeepsWants(r: Race, t: Race, c: nat, row: LogRow)
    requires RowsAreOwned(r) && Created(r, t, c, row)
    ensures forall x :: x in t.tables.logs ==> exists d :: Wants(t, d, x)
  {
    CreateAddsWriter(r, t, c, row);
    forall x | x in t.tables.logs ensures exists d :: Wants(t, d, x) {
      if x in r.tables.logs {
        var d :| Wants(r, d, x);
        assert Wants(t, d, x);
      }
    }
  }

  lemma CreateKeepsOneWriter(r: Race, t: Race, c: nat, row: LogRow, d: nat, e: nat)
    requires RowsAreOwned(r) && Created(r, t, c, row) && (forall x :: x in r.tables.logs ==> !SameKey(x, row))
    requires Writer(t, d) && Writer(t, e) && SameKey(t.calls[d].row, t.calls[e].row)
    ensures d == e
  {
    CreateAddsWriter(r, t, c, row);
    assert d != c ==> t.calls[d].row == r.calls[d].row && t.calls[d].row in r.tables.logs;
    assert e != c ==> t.calls[e].row == r.calls[e].row && t.calls[e].row in r.tables.logs;
  }

  lemma CreateKeepsFound(r: Race, t: Race, c: nat, row: LogRow, d: nat)
    requires RowsAreOwned(r) && Created(r, t, c, row) && d in t.calls
    ensures t.calls[d].phase.Found? ==>
      t.calls[d].phase.row in t.tables.logs && SameKey(t.calls[d].phase.row, t.calls[d].row)
    ensures Writer(t, d) ==> t.calls[d].row in t.tables.logs
  {
    CreateAddsWriter(r, t, c, row);
  }

  lemma CreateKeepsOwners(r: Race, c: nat)
    requires RowsAreOwned(r) && At(r, c, Creating)
    requires FindLog(r.tables.logs, r.calls[c].row.merchantId, r.calls[c].row.key).None?
    ensures RowsAreOwned(Apply(0, r, Create(c)))
  {
    CreatedIsOwned(r, Apply(0, r, Create(c)), c, r.calls[c].row);
  }

  lemma CreatedIsOwned(r: Race, t: Race, c: nat, row: LogRow)
    requires RowsAreOwned(r) && Created(r, t, c, row) && FindLog(r.tables.logs, row.merchantId, row.key).None?
    ensures RowsAreOwned(t)
  {
    FreshRowIsUnique(r.tables.logs, row);
    CreateKeepsWants(r, t, c, row);
    forall d | d in t.calls
      ensures t.calls[d].phase.Found? ==>
        t.calls[d].phase.row in t.tables.logs && SameKey(t.calls[d].phase.row, t.calls[d].row)
      ensures Writer(t, d) ==> t.calls[d].row in t.tables.logs
    {
      CreateKeepsFound(r, t, c, row, d);
    }
    forall d, e | Writer(t, d) && Writer(t, e) && SameKey(t.calls[d].row, t.calls[e].row) ensures d == e {
      CreateKeepsOneWriter(r, t, c, row, d, e);
    }
  }

  /** Rows and writers stay, and what is found is a row. */
  ghost predicate SameOwners(r: Race, t: Race) {
    && t.tables.logs == r.tables.logs
    && (forall c :: Writer(r, c) <==> Writer(t, c))
    && (forall c :: Writer(r, c) ==> t.calls[c].row == r.calls[c].row)
    && (forall c :: c in t.calls && t.calls[c].phase.Found? ==>
          (c in r.calls && r.calls[c] == t.calls[c])
          || (t.calls[c].phase.row in t.tables.logs && SameKey(t.calls[c].phase.row, t.calls[c].row)))
  }

  lemma SameOwnersStay(r: Race, t: Race)
    requires RowsAreOwned(r) && SameOwners(r, t)
    ensures RowsAreOwned(t)
  {
    forall x | x in t.tables.logs ensures exists d :: Wants(t, d, x) {
      var d :| Wants(r, d, x);
      assert Wants(t, d, x);
    }
  }

  lemma FindKeepsOwners(r: Race, c: nat)
    requires At(r, c, Looking)
    ensures SameOwners(r, Apply(0, r, Find(c)))
  {
    FindLogFinds(r.tables.logs, r.calls[c].row.merchantId, r.calls[c].row.key);
    assert Apply(0, r, Find(c)).calls == r.calls[c := Apply(0, r, Find(c)).calls[c]];
  }

  lemma OtherStepsKeepOwners(width: nat, r: Race, step: Step)
    requires Enabled(width, r, step) && !step.Create? && !step.Find?
    ensures SameOwners(r, Apply(width, r, step))
  {
  }

  lemma StepKeepsOwners(width: nat, r: Race, step: Step)
    requires RowsAreOwned(r) && Enabled(width, r, step)
    ensures RowsAreOwned(Apply(width, r, step)) && r.tables.logs <= Apply(width, r, step).tables.logs
  {
    if step.Create? {
      var row := r.calls[step.c].row;
      if FindLog(r.tables.logs, row.merchantId, row.key).None? {
        CreateKeepsOwners(r, step.c);
      } else {
        SameOwnersStay(r, To(r, step.c, Collided));
      }
    } else {
      if step.Find? { FindKeepsOwners(r, step.c); } else { OtherStepsKeepOwners(width, r, step); }
      SameOwnersStay(r, Apply(width, r, step));
    }
  }

  lemma {:induction false} RunKeepsInv(width: nat, r: Race, steps: seq<Step>)
    requires RaceInv(r)
    ensures RaceInv(Run(width, r, steps)) && r.tables.logs <= Run(width, r, steps).tables.logs
    decreases |steps|
  {
    if steps != [] {
      var n := |steps| - 1;
      RunKeepsInv(width, r, steps[..n]);
      var before := Run(width, r, steps[..n]);
      if Enabled(width, before, steps[n]) {
        StepKeepsOwners(width, before, steps[n]);
        StepKeepsCounters(width, before, steps[n]);
      }
    }
  }

  // ---- what the logs and counters are good for

  /** In every interleaving a key has at most one row, and that row exactly one call that created it: a second writer
      hits the unique index, and neither writes nor counts. */
  lemma {:induction false} OneWriterPerRow(width: nat, steps: seq<Step>)
    ensures var r := Run(width, Start, steps);
      && UniqueKeys(r.tables.logs)
      && (forall row :: row in r.tables.logs ==> exists c :: Wants(r, c, row))
      && (forall c, d :: Writer(r, c) && Writer(r, d) && SameKey(r.calls[c].row, r.calls[d].row) ==> c == d)
  {
    StartIsRight();
    RunKeepsInv(width, Start, steps);
  }

  lemma StartIsRight()
    ensures RaceInv(Start)
  {
    assert forall k: LedgerKey :: Having(Start.calls, Uncounted(k)) == {};
    assert forall k: UsageKey :: Having(Start.calls, Unmetered(k)) == {};
  }

  /** In every interleaving each counter of a day, with the calls between creating a row and counting it, is the number
      of the rows; and so is each message meter. */
  lemma {:induction false} CountersAndPendingAreRows(width: nat, steps: seq<Step>, day: LedgerKey, meter: UsageKey)
    requires day.window.ByDay? && meter.usage != N8nExecution
    ensures var r := Run(width, Start, steps);
      && Count(r.tables.ledger, day) + |Having(r.calls, Uncounted(day))| == CountLedger(r.tables.logs, day)
      && Count(r.tables.usage, meter) + |Having(r.calls, Unmetered(meter))| == CountUsage(r.tables.logs, meter)
  {
    StartIsRight();
    RunKeepsInv(width, Start, steps);
    assert DayCounts(Run(width, Start, steps), day) && MeterCounts(Run(width, Start, steps), meter);
  }

  /** A counter is never ahead of the rows, and it equals them exactly when no call of its cell has stopped in
      between. */
  lemma {:induction false} CountersEqualRowsIff(width: nat, steps: seq<Step>, day: LedgerKey)
    requires day.window.ByDay?
    ensures var r := Run(width, Start, steps);
      && Count(r.tables.ledger, day) <= CountLedger(r.tables.logs, day)
      && (Count(r.tables.ledger, day) == CountLedger(r.tables.logs, day) <==>
            forall c :: c in r.calls && r.calls[c].phase.Counting? ==> !OfDay(r.calls[c].row, day))
  {
    StartIsRight();
    RunKeepsInv(width, Start, steps);
    var r := Run(width, Start, steps);
    var pending := Having(r.calls, Uncounted(day));
    assert DayCounts(r, day);
    assert |pending| == 0 <==> pending == {};
    assert forall c :: c in pending <==>
      c in r.calls && r.calls[c].phase.Counting? && OfDay(r.calls[c].row, day);
  }

  /** What a call that is through has returned. */
  function Returned(r: Race, c: nat): Option<LogRow> {
    if c !in r.calls then None
    else match r.calls[c].phase
      case Wrote => Some(r.calls[c].row)
      case Found(row) => Some(row)
      case _ => None
  }

  /** All calls on one key that return, return the same row. */
  lemma {:induction false} CallsReturnOneRow(width: nat, steps: seq<Step>, c: nat, d: nat)
    requires var r := Run(width, Start, steps);
      Returned(r, c).Some? && Returned(r, d).Some? && SameKey(r.calls[c].row, r.calls[d].row)
    ensures var r := Run(width, Start, steps);
      Returned(r, c) == Returned(r, d) && Returned(r, c).value in r.tables.logs
  {
    StartIsRight();
    RunKeepsInv(width, Start, steps);
    var r := Run(width, Start, steps);
    assert Writer(r, c) ==> r.calls[c].row in r.tables.logs;
    assert Writer(r, d) ==> r.calls[d].row in r.tables.logs;
  }

  /** Each call logs the very row it began with. */
  lemma {:induction false} CallsLogWhatWasAsked(width: nat, steps: seq<Step>, c: nat)
    requires c in Run(width, Start, steps).calls
    ensures Begin(c, Run(width, Start, steps).calls[c].row) in steps
    decreases |steps|
  {
    var n := |steps| - 1;
    var before := Run(width, Start, steps[..n]);
    if c in before.calls {
      CallsLogWhatWasAsked(width, steps[..n], c);
    } else {
      assert steps[n].Begin? && steps[n].c == c;
    }
  }

  /** A call on a key that has its row already is answered with that row once it has looked, and never writes. */
  predicate OnlyFinds(r: Race, c: nat, row: LogRow) {
    c in r.calls && SameKey(r.calls[c].row, row) && (r.calls[c].phase.Looking? || r.calls[c].phase == Found(row))
  }

  lemma StepOnlyFinds(width: nat, r: Race, step: Step, c: nat, row: LogRow)
    requires RowsAreOwned(r) && row in r.tables.logs && OnlyFinds(r, c, row)
    ensures OnlyFinds(Next(width, r, step), c, row)
    ensures step == Find(c) ==> Next(width, r, step).calls[c].phase == Found(row)
  {
    FindLogFinds(r.tables.logs, row.merchantId, row.key);
    var found := FindLog(r.tables.logs, row.merchantId, row.key);
    assert found.Some? ==> found.value == row;
  }

  lemma CallsKeepTheirRow(width: nat, r: Race, step: Step, c: nat)
    requires c in Next(width, r, step).calls
    ensures var call := Next(width, r, step).calls[c];
      if c in r.calls then call.row == r.calls[c].row else call.phase == Looking
  {
  }

  lemma {:induction false} LaterCallsReturnTheRow(width: nat, r: Race, more: seq<Step>, c: nat, row: LogRow)
    requires RaceInv(r) && row in r.tables.logs && c !in r.calls
    requires c in Run(width, r, more).calls && SameKey(Run(width, r, more).calls[c].row, row)
    ensures OnlyFinds(Run(width, r, more), c, row)
    decreases |more|
  {
    var n := |more| - 1;
    var before := Run(width, r, more[..n]);
    RunKeepsInv(width, r, more[..n]);
    CallsKeepTheirRow(width, before, more[n], c);
    if c in before.calls {
      LaterCallsReturnTheRow(width, r, more[..n], c, row);
      StepOnlyFinds(width, before, more[n], c, row);
    }
  }

  lemma RunMore(width: nat, r: Race, steps: seq<Step>, step: Step)
    ensures Run(width, r, steps + [step]) == Next(width, Run(width, r, steps), step)
  {
    assert (steps + [step])[..|steps|] == steps;
  }

  lemma RunFive(width: nat, r: Race, a: Step, b: Step, c: Step, d: Step, e: Step)
    ensures Run(width, r, [a, b, c, d, e]) ==
      Next(width, Next(width, Next(width, Next(width, Next(width, r, a), b), c), d), e)
  {
    RunMore(width, r, [], a);
    RunMore(width, r, [a], b);
    RunMore(width, r, [a, b], c);
    RunMore(width, r, [a, b, c], d);
    RunMore(width, r, [a, b, c, d], e);
    assert [] + [a] == [a] && [a] + [b] == [a, b] && [a, b] + [c] == [a, b, c] && [a, b, c] + [d] == [a, b, c, d];
    assert [a, b, c, d] + [e] == [a, b, c, d, e];
  }

  lemma FreshKeyGoesThrough(width: nat, r: Race, c: nat, row: LogRow)
    requires c !in r.calls && FindLog(r.tables.logs, row.merchantId, row.key).None?
    ensures var t := r.tables;
      Run(width, r, [Begin(c, row), Find(c), Create(c), CountDay(c), Meter(c)]) ==
      Race(State(t.logs + [row], Bump(t.ledger, RowLedgerKey(row)), Bump(t.usage, RowUsageKey(row))),
           r.calls[c := Call(row, Wrote)], r.checked)
  {
    RunFive(width, r, Begin(c, row), Find(c), Create(c), CountDay(c), Meter(c));
  }

  /** A first call on a key, once through, has logged its row and counted it once, in the day's cell and in the
      meter that are the row's, and nowhere else. */
  lemma FreshKeyIsLogged(width: nat, r: Race, c: nat, row: LogRow)
    requires c !in r.calls && FindLog(r.tables.logs, row.merchantId, row.key).None?
    ensures var t := Run(width, r, [Begin(c, row), Find(c), Create(c), CountDay(c), Meter(c)]);
      && t.tables.logs == r.tables.logs + [row] && t.checked == r.checked
      && t.calls == r.calls[c := Call(row, Wrote)]
      && (forall k :: Count(t.tables.ledger, k) == Count(r.tables.ledger, k) + One(OfDay(row, k)))
      && (forall k :: Count(t.tables.usage, k) == Count(r.tables.usage, k) + One(Metered(row, k)))
  {
    FreshKeyGoesThrough(width, r, c, row);
    CellsOfRow(row);
  }

  // ---- the monthly cap

  /** The checks of the key's cap allow at most `cap`. */
  predicate Caps(steps: seq<Step>, key: LedgerKey, cap: nat) {
    forall i :: 0 <= i < |steps| && steps[i].Check? && steps[i].key == key ==> steps[i].cap <= cap
  }

  /** One more than the cap for each further call that overlaps on the key; none at all without a first one. */
  function CapBound(cap: nat, width: nat): nat { if cap == 0 || width == 0 then 0 else cap + width - 1 }

  predicate UnderBound(r: Race, key: LedgerKey, cap: nat, width: nat) {
    && Count(r.tables.ledger, key) + |Waiting(r.checked, key)| <= CapBound(cap, width)
    && |Waiting(r.checked, key)| <= width
  }

  lemma CheckKeepsBound(r: Race, c: nat, key: LedgerKey, cap: nat, step: Step, width: nat)
    requires UnderBound(r, key, cap, width) && step.Check? && step.c == c && Enabled(width, r, step)
    requires step.key == key ==> step.cap <= cap
    ensures UnderBound(Apply(width, r, step), key, cap, width)
  {
    var t := Apply(width, r, step);
    if t.checked != r.checked {
      var were := Waiting(r.checked, key);
      assert Waiting(t.checked, key) == if step.key == key then were + {c} else were;
    }
  }

  lemma ReserveKeepsBound(r: Race, c: nat, key: LedgerKey, cap: nat, width: nat)
    requires UnderBound(r, key, cap, width) && c in r.checked
    ensures UnderBound(Apply(width, r, Step.Reserve(c)), key, cap, width)
  {
    var t := Apply(width, r, Step.Reserve(c));
    assert Waiting(t.checked, key) == Waiting(r.checked, key) - {c};
  }

  lemma SkipKeepsBound(r: Race, c: nat, key: LedgerKey, cap: nat, width: nat)
    requires UnderBound(r, key, cap, width) && c in r.checked
    ensures UnderBound(Apply(width, r, Skip(c)), key, cap, width)
  {
    var t := Apply(width, r, Skip(c));
    assert Waiting(t.checked, key) == Waiting(r.checked, key) - {c};
  }

  /** A buyer's month on a channel never holds more reservations than the cap and the calls that can overlap on it
      between check and reservation, less one, whatever is under way for other buyers, channels and months. */
  lemma {:induction false} ReservationsAreBounded(width: nat, steps: seq<Step>, key: LedgerKey, cap: nat)
    requires key.window.ByMonth? && Caps(steps, key, cap)
    ensures UnderBound(Run(width, Start, steps), key, cap, width)
    decreases |steps|
  {
    if steps == [] {
      assert Waiting(Start.checked, key) == {};
    } else {
      var n := |steps| - 1;
      ReservationsAreBounded(width, steps[..n], key, cap);
      var before := Run(width, Start, steps[..n]);
      var step := steps[n];
      if Enabled(width, before, step) {
        if step.Check? { CheckKeepsBound(before, step.c, key, cap, step, width); }
        if step.Reserve? { ReserveKeepsBound(before, step.c, key, cap, width); }
        if step.Skip? { SkipKeepsBound(before, step.c, key, cap, width); }
      }
    }
  }

  /** A dispatch that checks EMAIL and then WHATSAPP before it reserves either overlaps with nobody by that. */
  lemma ChannelsDoNotOverlap(r: Race, c: nat, d: nat, merchantId: string, buyerId: string, month: Month, cap: nat)
    requires c != d && c !in r.checked && d !in r.checked
    requires Waiting(r.checked, ReserveKey(merchantId, buyerId, "EMAIL", month)) == {}
    requires Waiting(r.checked, ReserveKey(merchantId, buyerId, "WHATSAPP", month)) == {}
    ensures var email := Check(c, ReserveKey(merchantId, buyerId, "EMAIL", month), cap);
      var whatsapp := Check(d, ReserveKey(merchantId, buyerId, "WHATSAPP", month), cap);
      Enabled(1, r, email) && Enabled(1, Next(1, r, email), whatsapp)
  {
    var email, whatsapp := "EMAIL", "WHATSAPP";
    assert |email| != |whatsapp|;
    var other := ReserveKey(merchantId, buyerId, whatsapp, month);
    var t := Checked(r, c, ReserveKey(merchantId, buyerId, email, month), cap);
    assert Waiting(t.checked, other) == Waiting(r.checked, other);
  }

  function Checkers(key: LedgerKey, n: nat): map<nat, LedgerKey> { map c | c in Upto(n) :: key }

  /** `count` reservations are in the ledger, and the first `left` calls have checked. */
  predicate Filled(r: Race, key: LedgerKey, count: nat, left: nat) {
    Count(r.tables.ledger, key) == count && r.checked == Checkers(key, left)
  }

  lemma OneMoreCheck(width: nat, r: Race, key: LedgerKey, cap: nat, count: nat, left: nat)
    requires key.window.ByMonth? && Filled(r, key, count, left) && count < cap && left < width
    ensures Filled(Next(width, r, Check(left, key, cap)), key, count, left + 1)
  {
    assert Waiting(Checkers(key, left), key) == Upto(left);
    assert Checkers(key, left + 1) == Checkers(key, left)[left := key];
  }

  lemma OneMoreReservation(width: nat, r: Race, key: LedgerKey, count: nat, left: nat)
    requires Filled(r, key, count, left + 1)
    ensures Filled(Next(width, r, Step.Reserve(left)), key, count + 1, left)
  {
    assert Checkers(key, left + 1) - {left} == Checkers(key, left);
  }

  /** The run is one of checks against `cap`, and fills the ledger so far. */
  predicate Fills(width: nat, steps: seq<Step>, key: LedgerKey, cap: nat, count: nat, left: nat) {
    Caps(steps, key, cap) && Filled(Run(width, Start, steps), key, count, left)
  }

  lemma CheckOnce(width: nat, before: seq<Step>, key: LedgerKey, cap: nat, count: nat, left: nat)
    requires key.window.ByMonth? && Fills(width, before, key, cap, count, left) && count < cap && left < width
    ensures Fills(width, before + [Check(left, key, cap)], key, cap, count, left + 1)
  {
    OneMoreCheck(width, Run(width, Start, before), key, cap, count, left);
    assert (before + [Check(left, key, cap)])[..|before|] == before;
  }

  lemma ReserveOnce(width: nat, before: seq<Step>, key: LedgerKey, cap: nat, count: nat, left: nat)
    requires Fills(width, before, key, cap, count, left + 1)
    ensures Fills(width, before + [Step.Reserve(left)], key, cap, count + 1, left)
  {
    OneMoreReservation(width, Run(width, Start, before), key, count, left);
    assert (before + [Step.Reserve(left)])[..|before|] == before;
  }

  /** `n` calls check and reserve in turn. */
  lemma {:induction false} FillInTurn(width: nat, key: LedgerKey, cap: nat, n: nat) returns (steps: seq<Step>)
    requires key.window.ByMonth? && width >= 1 && n <= cap
    ensures Fills(width, steps, key, cap, n, 0)
    decreases n
  {
    if n == 0 {
      steps := [];
      assert Checkers(key, 0) == map[];
    } else {
      var before := FillInTurn(width, key, cap, n - 1);
      CheckOnce(width, before, key, cap, n - 1, 0);
      steps := before + [Check(0, key, cap)];
      ReserveOnce(width, steps, key, cap, n - 1, 0);
      steps := steps + [Step.Reserve(0)];
    }
  }

  /** Then `m` calls check before any of them reserves. */
  lemma {:induction false} CheckTogether(width: nat, key: LedgerKey, cap: nat, n: nat, m: nat)
    returns (steps: seq<Step>)
    requires key.window.ByMonth? && 1 <= width && m <= width && n < cap
    ensures Fills(width, steps, key, cap, n, m)
    decreases m
  {
    if m == 0 {
      steps := FillInTurn(width, key, cap, n);
    } else {
      var before := CheckTogether(width, key, cap, n, m - 1);
      CheckOnce(width, before, key, cap, n, m - 1);
      steps := before + [Check(m - 1, key, cap)];
    }
  }

  /** And then they reserve. */
  lemma {:induction false} ReserveTogether(width: nat, before: seq<Step>, key: LedgerKey, cap: nat, count: nat,
      left: nat)
    returns (steps: seq<Step>)
    requires Fills(width, before, key, cap, count, left)
    ensures Fills(width, steps, key, cap, count + left, 0)
    decreases left
  {
    if left == 0 {
      steps := before;
    } else {
      ReserveOnce(width, before, key, cap, count, left - 1);
      steps := ReserveTogether(width, before + [Step.Reserve(left - 1)], key, cap, count + 1, left - 1);
    }
  }

  /** The cap holds of all runs exactly when no two calls overlap on its own key between check and reservation, or it is
      zero. */
  lemma CapHoldsIff(width: nat, key: LedgerKey, cap: nat)
    requires key.window.ByMonth?
    ensures (forall steps :: Caps(steps, key, cap) ==> Count(Run(width, Start, steps).tables.ledger, key) <= cap)
      <==> width <= 1 || cap == 0
  {
    if width <= 1 || cap == 0 {
      forall steps | Caps(steps, key, cap) ensures Count(Run(width, Start, steps).tables.ledger, key) <= cap {
        ReservationsAreBounded(width, steps, key, cap);
      }
    } else {
      var checked := CheckTogether(width, key, cap, cap - 1, width);
      var steps := ReserveTogether(width, checked, key, cap, cap - 1, width);
      assert Count(Run(width, Start, steps).tables.ledger, key) == cap + width - 1;
    }
  }
}
