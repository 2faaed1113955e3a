/** First-writer-wins communication logs, their frequency ledger and usage meter, and the callback that feeds
    them (`autopilot.service.ts`). An empty string stands for an absent field, as it does for the source's `||`. */
module CommunicationLog {
  import opened Base
  import opened Text

  datatype Day = Day(year: nat, month: nat, date: nat)

  datatype Month = Month(year: nat, month: nat)

  function MonthOf(d: Day): Month { Month(d.year, d.month) }

  datatype Input = Input(
    merchantId: string, eventId: string, campaignId: string, idempotencyKey: string, channel: string, recipient: string,
    templateKey: string, status: string, provider: string, providerMessageId: string,
    eventKey: string, workflowKey: string)

  datatype LogRow = LogRow(merchantId: string, key: string, input: Input, day: Day)

  /** The ledger is keyed by a day for recipients and by a month for repeat buyers; the two are spelled differently. */
  datatype Window = ByDay(day: Day) | ByMonth(month: Month)

  datatype LedgerKey = LedgerKey(merchantId: string, subject: string, channel: string, window: Window)

  datatype UsageType = N8nExecution | MessageAttempt | MessageSent | MessageFailed

  datatype UsageKey = UsageKey(merchantId: string, month: Month, usage: UsageType, eventKey: string,
      workflowKey: string, channel: string)

  datatype State = State(logs: seq<LogRow>, ledger: map<LedgerKey, nat>, usage: map<UsageKey, nat>)

  const Initial := State([], map[], map[])

  // ---- the idempotency key

  function Or(s: string, fallback: string): string { if s != "" then s else fallback }

  function DefaultParts(input: Input): (parts: seq<string>)
    ensures |parts| == 6
  {
    ["communication", Or(input.eventId, "no-event"), Or(input.campaignId, "no-campaign"), input.channel,
     input.recipient, Or(input.templateKey, "no-template")]
  }

  function MakeKey(input: Input): string {
    if Trim(input.idempotencyKey) != "" then Trim(input.idempotencyKey)
    else if input.provider != "" && input.providerMessageId != "" then
      "provider:" + input.provider + ":" + input.providerMessageId
    else if input.providerMessageId != "" then "provider-message:" + input.providerMessageId
    else Join(DefaultParts(input), ':')
  }

  predicate Defaulted(input: Input) { Trim(input.idempotencyKey) == "" && input.providerMessageId == "" }

  function Template(input: Input): string { Or(input.templateKey, "no-template") }

  /** The key is generated, and its first fields, which are ids and a channel name, hold no separator. Recipients and
      templates may hold some: the source itself makes recipients like "buyer:<id>". */
  predicate Plain(input: Input) {
    && Defaulted(input)
    && Free(':', Or(input.eventId, "no-event")) && Free(':', Or(input.campaignId, "no-campaign"))
    && Free(':', input.channel)
  }

  /** The end of a generated key, where the separator does not tell recipient and template apart. */
  function KeyTail(input: Input): string { input.recipient + [':'] + Template(input) }

  lemma JoinCons(part: string, rest: seq<string>)
    requires rest != []
    ensures Join([part] + rest, ':') == part + [':'] + Join(rest, ':')
  {
    assert ([part] + rest)[1..] == rest;
  }

  lemma KeyParts(input: Input)
    requires Defaulted(input)
    ensures MakeKey(input) ==
      "communication" + [':'] + (Or(input.eventId, "no-event") + [':'] + (Or(input.campaignId, "no-campaign") + [':']
        + (input.channel + [':'] + KeyTail(input))))
  {
    var e, c := Or(input.eventId, "no-event"), Or(input.campaignId, "no-campaign");
    var tail := [input.recipient, Template(input)];
    assert Join(tail, ':') == KeyTail(input) by {
      assert tail[1..] == [Template(input)];
    }
    JoinCons(input.channel, tail);
    JoinCons(c, [input.channel] + tail);
    JoinCons(e, [c] + ([input.channel] + tail));
    JoinCons("communication", [e] + ([c] + ([input.channel] + tail)));
    assert DefaultParts(input) == ["communication"] + ([e] + ([c] + ([input.channel] + tail)));
  }

  /** Two generated keys agree exactly when event, campaign and channel do, and the ends read the same. */
  lemma DefaultKeysAgreeIff(a: Input, b: Input)
    requires Plain(a) && Plain(b)
    ensures MakeKey(a) == MakeKey(b) <==>
      && Or(a.eventId, "no-event") == Or(b.eventId, "no-event")
      && Or(a.campaignId, "no-campaign") == Or(b.campaignId, "no-campaign")
      && a.channel == b.channel
      && KeyTail(a) == KeyTail(b)
  {
    var ea, ca := Or(a.eventId, "no-event"), Or(a.campaignId, "no-campaign");
    var eb, cb := Or(b.eventId, "no-event"), Or(b.campaignId, "no-campaign");
    var ta, tb := a.channel + [':'] + KeyTail(a), b.channel + [':'] + KeyTail(b);
    var ua, ub := ca + [':'] + ta, cb + [':'] + tb;
    KeyParts(a);
    KeyParts(b);
    FirstPart(a.channel, KeyTail(a), b.channel, KeyTail(b), ':');
    FirstPart(ca, ta, cb, tb, ':');
    FirstPart(ea, ua, eb, ub, ':');
    FirstPart("communication", ea + [':'] + ua, "communication", eb + [':'] + ub, ':');
  }

  /** Does a separator stand where another recipient could end, and a template still follow? */
  predicate Splittable(recipient: string, template: string)
    requires template != ""
  {
    ':' in recipient || ':' in template[..|template| - 1]
  }

  lemma SplitElsewhere(recipient: string, template: string) returns (r: string, t: string)
    requires template != "" && Splittable(recipient, template)
    ensures t != "" && r != recipient && r + [':'] + t == recipient + [':'] + template
  {
    if ':' in recipient {
      var i :| 0 <= i < |recipient| && recipient[i] == ':';
      r, t := recipient[..i], recipient[i + 1..] + [':'] + template;
      assert recipient == recipient[..i] + [':'] + recipient[i + 1..];
    } else {
      var i :| 0 <= i < |template| - 1 && template[..|template| - 1][i] == ':';
      r, t := recipient + [':'] + template[..i], template[i + 1..];
      assert template == template[..i] + [':'] + template[i + 1..];
    }
  }

  lemma OnlySplitThere(recipient: string, template: string, r: string, t: string)
    requires template != "" && t != "" && r != recipient && r + [':'] + t == recipient + [':'] + template
    ensures Splittable(recipient, template)
  {
    var whole := recipient + [':'] + template;
    assert whole == r + [':'] + t && whole[|r|] == ':';
    assert |r| + |t| == |recipient| + |template|;
    assert r == whole[..|r|] && recipient == whole[..|recipient|];
    if |r| < |recipient| {
      assert recipient[|r|] == ':';
    } else {
      assert template[..|template| - 1][|r| - |recipient| - 1] == ':';
    }
  }

  /** `b` goes to another recipient than `a`, under the same key. */
  predicate SharesKey(a: Input, b: Input) { Plain(b) && b.recipient != a.recipient && MakeKey(b) == MakeKey(a) }

  /** A generated key is shared with a message to another recipient exactly when the message's own recipient holds a
      separator, or its template does before its last character. */
  lemma KeySharedIff(a: Input)
    requires Plain(a)
    ensures (exists b :: SharesKey(a, b)) <==> Splittable(a.recipient, Template(a))
  {
    forall b | SharesKey(a, b) ensures Splittable(a.recipient, Template(a)) {
      DefaultKeysAgreeIff(b, a);
      OnlySplitThere(a.recipient, Template(a), b.recipient, Template(b));
    }
    if Splittable(a.recipient, Template(a)) {
      var r, t := SplitElsewhere(a.recipient, Template(a));
      var b := a.(recipient := r, templateKey := t);
      DefaultKeysAgreeIff(b, a);
      assert SharesKey(a, b);
    }
  }

  // ---- the other kinds of key

  predicate Explicit(input: Input) { Trim(input.idempotencyKey) != "" }

  /** No key of its own, but a provider's message id. */
  predicate ByProvider(input: Input) { !Explicit(input) && input.provider != "" && input.providerMessageId != "" }

  predicate ByMessage(input: Input) { !Explicit(input) && input.provider == "" && input.providerMessageId != "" }

  /** Two keys that were sent agree exactly when they are the same text but for blanks around it. */
  lemma ExplicitKeysAgreeIff(a: Input, b: Input)
    requires Explicit(a) && Explicit(b)
    ensures MakeKey(a) == MakeKey(b) <==> Trim(a.idempotencyKey) == Trim(b.idempotencyKey)
  {
  }

  /** The end of a provider's key, where the separator does not tell provider and message id apart. */
  function ProviderTail(input: Input): string { input.provider + [':'] + input.providerMessageId }

  lemma ProviderKeyIs(input: Input)
    requires ByProvider(input)
    ensures MakeKey(input) == "provider:" + ProviderTail(input)
  {
  }

  lemma SamePrefix(p: string, x: string, y: string)
    ensures p + x == p + y <==> x == y
  {
    assert (p + x)[|p|..] == x && (p + y)[|p|..] == y;
  }

  /** Two messages of providers whose names hold no separator share a key exactly when they are the same message of the
      same provider. */
  lemma ProviderKeysAgreeIff(a: Input, b: Input)
    requires ByProvider(a) && ByProvider(b) && Free(':', a.provider) && Free(':', b.provider)
    ensures MakeKey(a) == MakeKey(b) <==> a.provider == b.provider && a.providerMessageId == b.providerMessageId
  {
    ProviderKeyIs(a);
    ProviderKeyIs(b);
    SamePrefix("provider:", ProviderTail(a), ProviderTail(b));
    FirstPart(a.provider, a.providerMessageId, b.provider, b.providerMessageId, ':');
  }

  /** Another message of another provider, under the same key. */
  predicate SharesProviderKey(a: Input, b: Input) {
    ByProvider(b) && b.provider != a.provider && MakeKey(b) == MakeKey(a)
  }

  /** A provider's key is shared with a message of another provider exactly when its provider's name holds a separator
      after its first character, or its message id one before its last. */
  lemma ProviderKeySharedIff(a: Input)
    requires ByProvider(a)
    ensures (exists b :: SharesProviderKey(a, b)) <==>
      ':' in a.provider[1..] || ':' in a.providerMessageId[..|a.providerMessageId| - 1]
  {
    var p, m := a.provider, a.providerMessageId;
    ProviderKeyIs(a);
    forall b | SharesProviderKey(a, b) ensures ':' in p[1..] || ':' in m[..|m| - 1] {
      ProviderKeyIs(b);
      SamePrefix("provider:", ProviderTail(a), ProviderTail(b));
      SplitsLater(p, m, b.provider, b.providerMessageId);
    }
    if ':' in p[1..] || ':' in m[..|m| - 1] {
      var r, t := SplitLater(p, m);
      var b := a.(provider := r, providerMessageId := t);
      ProviderKeyIs(b);
      assert SharesProviderKey(a, b);
    }
  }

  lemma SplitsLater(p: string, m: string, r: string, t: string)
    requires p != "" && m != "" && r != "" && t != "" && r != p && r + [':'] + t == p + [':'] + m
    ensures ':' in p[1..] || ':' in m[..|m| - 1]
  {
    var whole := p + [':'] + m;
    assert whole == r + [':'] + t && whole[|r|] == ':' && |r| + |t| == |p| + |m|;
    assert r == whole[..|r|] && p == whole[..|p|];
    if |r| < |p| {
      assert p[1..][|r| - 1] == p[|r|] == ':';
    } else {
      assert m[..|m| - 1][|r| - |p| - 1] == ':';
    }
  }

  lemma SplitLater(p: string, m: string) returns (r: string, t: string)
    requires p != "" && m != "" && (':' in p[1..] || ':' in m[..|m| - 1])
    ensures r != "" && t != "" && r != p && r + [':'] + t == p + [':'] + m
  {
    if ':' in p[1..] {
      var i :| 0 <= i < |p| - 1 && p[1..][i] == ':';
      r, t := p[..i + 1], p[i + 2..] + [':'] + m;
      assert p == p[..i + 1] + [':'] + p[i + 2..];
    } else {
      var i :| 0 <= i < |m| - 1 && m[..|m| - 1][i] == ':';
      r, t := p + [':'] + m[..i], m[i + 1..];
      assert m == m[..i] + [':'] + m[i + 1..];
    }
  }

  /** Messages with an id and no provider share a key exactly when they share the id. */
  lemma MessageKeysAgreeIff(a: Input, b: Input)
    requires ByMessage(a) && ByMessage(b)
    ensures MakeKey(a) == MakeKey(b) <==> a.providerMessageId == b.providerMessageId
  {
    SamePrefix("provider-message:", a.providerMessageId, b.providerMessageId);
  }

  /** A key made from a provider, one made from a message id alone and a generated one never meet; only a key that was
      sent can be spelled like one of them. */
  lemma KindsNeverMeet(a: Input, b: Input)
    requires ByProvider(a) && !Explicit(b) && !ByProvider(b)
    ensures MakeKey(a) != MakeKey(b)
    ensures ByMessage(b) ==> forall d :: Defaulted(d) ==> MakeKey(b) != MakeKey(d)
  {
    ProviderKeyIs(a);
    assert MakeKey(a)[0] == 'p' && MakeKey(a)[8] == ':';
    if Defaulted(b) {
      KeyParts(b);
      assert MakeKey(b)[0] == 'c';
    } else {
      assert MakeKey(b)[0] == 'p' && MakeKey(b)[8] == '-';
      forall d | Defaulted(d) ensures MakeKey(b) != MakeKey(d) {
        KeyParts(d);
        assert MakeKey(d)[0] == 'c';
      }
    }
  }

  // ---- logging

  function FindLog(logs: seq<LogRow>, merchantId: string, key: string): Option<LogRow> {
    if logs == [] then None
    else if logs[0].merchantId == merchantId && logs[0].key == key then Some(logs[0])
    else FindLog(logs[1..], merchantId, key)
  }

  function Bump<K>(m: map<K, nat>, k: K): map<K, nat> { m[k := Count(m, k) + 1] }

  function Count<K>(m: map<K, nat>, k: K): nat { if k in m then m[k] else 0 }

  function UsageOf(status: string): UsageType {
    if status == "FAILED" then MessageFailed
    else if status in {"SENT", "DELIVERED", "READ", "RESPONDED"} then MessageSent
    else MessageAttempt
  }

  function RowLedgerKey(r: LogRow): LedgerKey {
    LedgerKey(r.merchantId, r.input.recipient, r.input.channel, ByDay(r.day))
  }

  function RowUsageKey(r: LogRow): UsageKey {
    UsageKey(r.merchantId, MonthOf(r.day), UsageOf(r.input.status), Or(r.input.eventKey, "ALL"),
             Or(r.input.workflowKey, "ALL"), Or(r.input.channel, "ALL"))
  }

  datatype Logged = Logged(state: State, row: LogRow)

  /** `logCommunication`: an existing row for the key is returned untouched, otherwise the row is written,
      counted in the day's ledger and metered. */
  function LogCommunication(s: State, input: Input, today: Day): Logged {
    var key := MakeKey(input);
    var existing := FindLog(s.logs, input.merchantId, key);
    if existing.Some? then Logged(s, existing.value)
    else
      var row := LogRow(input.merchantId, key, input, today);
      Logged(State(s.logs + [row], Bump(s.ledger, RowLedgerKey(row)), Bump(s.usage, RowUsageKey(row))), row)
  }

  function ReserveKey(merchantId: string, buyerId: string, channel: string, month: Month): LedgerKey {
    LedgerKey(merchantId, "repeat-buyer:" + buyerId, channel, ByMonth(month))
  }

  /** Two reservations count together exactly when they are for the same buyer, channel and month. */
  lemma ReserveKeysAgreeIff(m: string, buyer: string, channel: string, month: Month,
      n: string, other: string, otherChannel: string, otherMonth: Month)
    ensures ReserveKey(m, buyer, channel, month) == ReserveKey(n, other, otherChannel, otherMonth) <==>
      m == n && buyer == other && channel == otherChannel && month == otherMonth
    ensures var k := ReserveKey(m, buyer, channel, month);
      k.merchantId == m && k.subject == "repeat-buyer:" + buyer && k.channel == channel && k.window == ByMonth(month)
  {
    var p := "repeat-buyer:";
    assert (p + buyer)[|p|..] == buyer && (p + other)[|p|..] == other;
  }

  /** `Reserve` is the second half of the monthly cap of a repeat buyer, whatever its check said. */
  datatype Op =
    | Log(input: Input, today: Day)
    | Reserve(merchantId: string, buyerId: string, channel: string, today: Day)
    | Execute(merchantId: string, eventKey: string, workflowKey: string, channel: string, today: Day)

  function Next(s: State, op: Op): State {
    match op
    case Log(input, today) => LogCommunication(s, input, today).state
    case Reserve(m, buyer, channel, today) =>
      s.(ledger := Bump(s.ledger, ReserveKey(m, buyer, channel, MonthOf(today))))
    case Execute(m, eventKey, workflowKey, channel, today) =>
      s.(usage := Bump(s.usage,
        UsageKey(m, MonthOf(today), N8nExecution, Or(eventKey, "ALL"), Or(workflowKey, "ALL"), Or(channel, "ALL"))))
  }

  function Run(s: State, ops: seq<Op>): State {
    if ops == [] then s else var n := |ops| - 1; Next(Run(s, ops[..n]), ops[n])
  }

  // ---- counting rows

  /** The row is one of the recipient's on the channel and the day. */
  predicate OfDay(r: LogRow, k: LedgerKey) {
    && r.merchantId == k.merchantId && r.input.recipient == k.subject && r.input.channel == k.channel
    && k.window == ByDay(r.day)
  }

  predicate NamedOrAll(field: string, name: string) { if field == "" then name == "ALL" else name == field }

  /** The row is one of the meter's: failed, sent on or only attempted, in the month, for the event, workflow and
      channel it names, where nothing named is ALL. */
  predicate Metered(r: LogRow, k: UsageKey) {
    && r.merchantId == k.merchantId && r.day.year == k.month.year && r.day.month == k.month.month
    && NamedOrAll(r.input.eventKey, k.eventKey) && NamedOrAll(r.input.workflowKey, k.workflowKey)
    && NamedOrAll(r.input.channel, k.channel)
    && match r.input.status
       case "FAILED" => k.usage == MessageFailed
       case "SENT" => k.usage == MessageSent
       case "DELIVERED" => k.usage == MessageSent
       case "READ" => k.usage == MessageSent
       case "RESPONDED" => k.usage == MessageSent
       case _ => k.usage == MessageAttempt
  }

  /** Every row is counted in one cell of the day's ledger and in one of the meter: the one it belongs to. */
  lemma CellsOfRow(r: LogRow)
    ensures forall k: LedgerKey :: RowLedgerKey(r) == k <==> OfDay(r, k)
    ensures forall k: UsageKey :: RowUsageKey(r) == k <==> Metered(r, k)
  {
  }

  function CountLedger(logs: seq<LogRow>, k: LedgerKey): nat {
    if logs == [] then 0 else CountLedger(logs[..|logs| - 1], k) + if OfDay(logs[|logs| - 1], k) then 1 else 0
  }

  function CountUsage(logs: seq<LogRow>, k: UsageKey): nat {
    if logs == [] then 0 else CountUsage(logs[..|logs| - 1], k) + if Metered(logs[|logs| - 1], k) then 1 else 0
  }

  function CountMonth(logs: seq<LogRow>, merchantId: string, month: Month): nat {
    if logs == [] then 0
    else
      var r := logs[|logs| - 1];
      CountMonth(logs[..|logs| - 1], merchantId, month) +
      if r.merchantId == merchantId && r.day.year == month.year && r.day.month == month.month then 1 else 0
  }

  predicate UniqueKeys(logs: seq<LogRow>) {
    forall i, j :: 0 <= i < j < |logs| ==> logs[i].merchantId != logs[j].merchantId || logs[i].key != logs[j].key
  }

  ghost predicate LedgerCounts(s: State) {
    forall k: LedgerKey :: k.window.ByDay? ==> Count(s.ledger, k) == CountLedger(s.logs, k)
  }

  ghost predicate UsageCounts(s: State) {
    forall k: UsageKey :: k.usage != N8nExecution ==> Count(s.usage, k) == CountUsage(s.logs, k)
  }

  ghost predicate Inv(s: State) { UniqueKeys(s.logs) && LedgerCounts(s) && UsageCounts(s) }

  lemma {:induction false} FindLogFinds(logs: seq<LogRow>, merchantId: string, key: string)
    ensures var found := FindLog(logs, merchantId, key);
      if found.Some? then found.value in logs && found.value.merchantId == merchantId && found.value.key == key
      else forall i :: 0 <= i < |logs| ==> logs[i].merchantId != merchantId || logs[i].key != key
  {
    if logs != [] { FindLogFinds(logs[1..], merchantId, key); }
  }

  lemma NewRowKeepsInv(s: State, row: LogRow)
    requires Inv(s) && FindLog(s.logs, row.merchantId, row.key).None?
    ensures Inv(State(s.logs + [row], Bump(s.ledger, RowLedgerKey(row)), Bump(s.usage, RowUsageKey(row))))
  {
    var logs := s.logs + [row];
    var t := State(logs, Bump(s.ledger, RowLedgerKey(row)), Bump(s.usage, RowUsageKey(row)));
    assert logs[..|logs| - 1] == s.logs;
    CellsOfRow(row);
    FindLogFinds(s.logs, row.merchantId, row.key);
    assert UniqueKeys(logs);
    forall k: LedgerKey | k.window.ByDay? ensures Count(t.ledger, k) == CountLedger(logs, k) {
      assert Count(s.ledger, k) == CountLedger(s.logs, k);
    }
    forall k: UsageKey | k.usage != N8nExecution ensures Count(t.usage, k) == CountUsage(logs, k) {
      assert Count(s.usage, k) == CountUsage(s.logs, k);
    }
  }

  lemma ReserveKeepsInv(s: State, op: Op)
    requires Inv(s) && op.Reserve?
    ensures Inv(Next(s, op))
  {
    var t := Next(s, op);
    forall k: LedgerKey | k.window.ByDay? ensures Count(t.ledger, k) == CountLedger(t.logs, k) {
      assert Count(s.ledger, k) == CountLedger(s.logs, k);
    }
  }

  lemma ExecuteKeepsInv(s: State, op: Op)
    requires Inv(s) && op.Execute?
    ensures Inv(Next(s, op))
  {
    var t := Next(s, op);
    forall k: UsageKey | k.usage != N8nExecution ensures Count(t.usage, k) == CountUsage(t.logs, k) {
      assert Count(s.usage, k) == CountUsage(s.logs, k);
    }
  }

  lemma StepKeepsInv(s: State, op: Op)
    requires Inv(s)
    ensures Inv(Next(s, op))
  {
    match op {
      case Log(input, today) =>
        if FindLog(s.logs, input.merchantId, MakeKey(input)).None? {
          NewRowKeepsInv(s, LogRow(input.merchantId, MakeKey(input), input, today));
        }
      case Reserve(_, _, _, _) => ReserveKeepsInv(s, op);
      case Execute(_, _, _, _, _) => ExecuteKeepsInv(s, op);
    }
  }

  lemma {:induction false} RunKeepsInv(s: State, ops: seq<Op>)
    requires Inv(s)
    ensures Inv(Run(s, ops))
  {
    if ops != [] {
      RunKeepsInv(s, ops[..|ops| - 1]);
      StepKeepsInv(Run(s, ops[..|ops| - 1]), ops[|ops| - 1]);
    }
  }

  /** Over every run there is at most one row per (merchant, key), the day's ledger counts the rows of a
      recipient and channel, and each message meter counts the rows of its cell. */
  lemma {:induction false} LedgerAndMeterCountRows(ops: seq<Op>)
    ensures var s := Run(Initial, ops);
      && UniqueKeys(s.logs)
      && (forall m, recipient, channel, day ::
            Count(s.ledger, LedgerKey(m, recipient, channel, ByDay(day))) ==
            CountLedger(s.logs, LedgerKey(m, recipient, channel, ByDay(day))))
      && (forall k: UsageKey :: k.usage != N8nExecution ==> Count(s.usage, k) == CountUsage(s.logs, k))
  {
    RunKeepsInv(Initial, ops);
  }

  // ---- whose rows they are

  /** The operation asked for the row. */
  predicate AsksFor(op: Op, row: LogRow) {
    op.Log? && row.merchantId == op.input.merchantId && row.input == op.input && row.day == op.today
      && row.key == MakeKey(op.input)
  }

  /** The operation is a message under the row's key. */
  predicate OnKey(op: Op, row: LogRow) {
    op.Log? && op.input.merchantId == row.merchantId && MakeKey(op.input) == row.key
  }

  /** The first message on a key writes the row, with what it says and its own day. */
  ghost predicate FirstOnKey(ops: seq<Op>, i: nat, row: LogRow) {
    i < |ops| && AsksFor(ops[i], row) && forall j :: 0 <= j < i ==> !OnKey(ops[j], row)
  }

  lemma StepKeepsFound(s: State, op: Op, merchantId: string, key: string)
    requires FindLog(s.logs, merchantId, key).Some?
    ensures FindLog(Next(s, op).logs, merchantId, key).Some?
  {
    FoundStaysFound(s.logs, Next(s, op).logs, merchantId, key);
  }

  lemma NewRowIsAsked(s: State, op: Op, row: LogRow)
    requires row in Next(s, op).logs && row !in s.logs
    ensures AsksFor(op, row) && FindLog(s.logs, row.merchantId, row.key).None?
  {
  }

  lemma {:induction false} NotFoundMeansNone(ops: seq<Op>, merchantId: string, key: string, j: nat)
    requires FindLog(Run(Initial, ops).logs, merchantId, key).None? && j < |ops|
    ensures !(ops[j].Log? && ops[j].input.merchantId == merchantId && MakeKey(ops[j].input) == key)
    decreases |ops|
  {
    var n := |ops| - 1;
    var s := Run(Initial, ops[..n]);
    if FindLog(s.logs, merchantId, key).Some? {
      StepKeepsFound(s, ops[n], merchantId, key);
    } else if j < n {
      NotFoundMeansNone(ops[..n], merchantId, key, j);
    } else {
      NotFoundAfterStep(s, ops[n], merchantId, key);
    }
  }

  lemma NotFoundAfterStep(s: State, op: Op, merchantId: string, key: string)
    requires FindLog(Next(s, op).logs, merchantId, key).None?
    ensures !(op.Log? && op.input.merchantId == merchantId && MakeKey(op.input) == key)
  {
    if op.Log? { LoggedIsFound(s, op.input, op.today); }
  }

  lemma RowWasThere(ops: seq<Op>, row: LogRow, i: nat)
    requires ops != [] && FirstOnKey(ops[..|ops| - 1], i, row)
    ensures FirstOnKey(ops, i, row)
  {
    assert forall j :: 0 <= j <= i ==> ops[j] == ops[..|ops| - 1][j];
  }

  lemma RowIsNew(ops: seq<Op>, row: LogRow)
    requires ops != [] && row in Run(Initial, ops).logs && row !in Run(Initial, ops[..|ops| - 1]).logs
    ensures FirstOnKey(ops, |ops| - 1, row)
  {
    var n := |ops| - 1;
    NewRowIsAsked(Run(Initial, ops[..n]), ops[n], row);
    forall j | 0 <= j < n ensures !OnKey(ops[j], row) {
      NotFoundMeansNone(ops[..n], row.merchantId, row.key, j);
      assert ops[j] == ops[..n][j];
    }
  }

  /** In every run each row is that of the first message on its key. */
  lemma {:induction false} RowIsFirstOnItsKey(ops: seq<Op>, row: LogRow) returns (i: nat)
    requires row in Run(Initial, ops).logs
    ensures FirstOnKey(ops, i, row)
    decreases |ops|
  {
    var n := |ops| - 1;
    if row in Run(Initial, ops[..n]).logs {
      i := RowIsFirstOnItsKey(ops[..n], row);
      RowWasThere(ops, row, i);
    } else {
      i := n;
      RowIsNew(ops, row);
    }
  }

  /** So the rows are exactly those of the first message on each key. */
  lemma RowsAreFirstOnTheirKey(ops: seq<Op>)
    ensures forall row :: row in Run(Initial, ops).logs <==> exists i: nat :: FirstOnKey(ops, i, row)
  {
    forall row | row in Run(Initial, ops).logs ensures exists i: nat :: FirstOnKey(ops, i, row) {
      var i := RowIsFirstOnItsKey(ops, row);
    }
    forall row, i: nat | FirstOnKey(ops, i, row) ensures row in Run(Initial, ops).logs {
      FirstHasItsRow(ops, i, row);
    }
  }

  lemma FirstHasItsRow(ops: seq<Op>, i: nat, row: LogRow)
    requires FirstOnKey(ops, i, row)
    ensures row in Run(Initial, ops).logs
  {
    var logs := Run(Initial, ops).logs;
    if FindLog(logs, row.merchantId, row.key).None? {
      NotFoundMeansNone(ops, row.merchantId, row.key, i);
    } else {
      FindLogFinds(logs, row.merchantId, row.key);
      var found := FindLog(logs, row.merchantId, row.key).value;
      var j := RowIsFirstOnItsKey(ops, found);
      assert OnKey(ops[i], found) && OnKey(ops[j], row);
    }
  }

  function One(counted: bool): nat { if counted then 1 else 0 }

  /** Two different messages of a provider both get their row, and each cell of the day's ledger and of the meter counts
      them if they are its own, whatever was logged before, as long as neither was. */
  lemma DifferentMessagesBothLog(s: State, a: Input, b: Input, today: Day)
    requires Inv(s) && ByProvider(a) && ByProvider(b) && Free(':', a.provider) && Free(':', b.provider)
    requires a.provider != b.provider || a.providerMessageId != b.providerMessageId
    requires FindLog(s.logs, a.merchantId, MakeKey(a)).None? && FindLog(s.logs, b.merchantId, MakeKey(b)).None?
    ensures var x, y := LogRow(a.merchantId, MakeKey(a), a, today), LogRow(b.merchantId, MakeKey(b), b, today);
      var t := Next(Next(s, Log(a, today)), Log(b, today));
      && t.logs == s.logs + [x, y]
      && (forall k: LedgerKey :: k.window.ByDay? ==>
            Count(t.ledger, k) == Count(s.ledger, k) + One(OfDay(x, k)) + One(OfDay(y, k)))
      && (forall k: UsageKey :: k.usage != N8nExecution ==>
            Count(t.usage, k) == Count(s.usage, k) + One(Metered(x, k)) + One(Metered(y, k)))
  {
    var x, y := LogRow(a.merchantId, MakeKey(a), a, today), LogRow(b.merchantId, MakeKey(b), b, today);
    ProviderKeysAgreeIff(a, b);
    FindAfterAppend(s.logs, x, b.merchantId, MakeKey(b));
    CellsOfRow(x);
    CellsOfRow(y);
    assert s.logs + [x] + [y] == s.logs + [x, y];
  }

  lemma {:induction false} FindAfterAppend(logs: seq<LogRow>, row: LogRow, merchantId: string, key: string)
    requires FindLog(logs, merchantId, key).None? && (row.merchantId != merchantId || row.key != key)
    ensures FindLog(logs + [row], merchantId, key).None?
  {
    FindLogFinds(logs, merchantId, key);
    FindLogFinds(logs + [row], merchantId, key);
  }

  // ---- executions

  predicate IsExecution(op: Op, k: UsageKey) {
    && op.Execute? && k.usage == N8nExecution && op.merchantId == k.merchantId
    && op.today.year == k.month.year && op.today.month == k.month.month
    && NamedOrAll(op.eventKey, k.eventKey) && NamedOrAll(op.workflowKey, k.workflowKey)
    && NamedOrAll(op.channel, k.channel)
  }

  function CountExecutions(ops: seq<Op>, k: UsageKey): nat {
    if ops == [] then 0
    else CountExecutions(ops[..|ops| - 1], k) + if IsExecution(ops[|ops| - 1], k) then 1 else 0
  }

  /** The execution meter of a cell counts the executions of the run that belong to it. */
  lemma {:induction false} ExecutionMeterCountsExecutions(ops: seq<Op>, k: UsageKey)
    requires k.usage == N8nExecution
    ensures Count(Run(Initial, ops).usage, k) == CountExecutions(ops, k)
  {
    if ops != [] { ExecutionMeterCountsExecutions(ops[..|ops| - 1], k); }
  }

  /** The operation reserves a message for the buyer and channel in the month of the cell. */
  predicate IsReservation(op: Op, k: LedgerKey) {
    && op.Reserve? && k.window == ByMonth(Month(op.today.year, op.today.month))
    && k.merchantId == op.merchantId && k.subject == "repeat-buyer:" + op.buyerId && k.channel == op.channel
  }

  function CountReservations(ops: seq<Op>, k: LedgerKey): nat {
    if ops == [] then 0 else CountReservations(ops[..|ops| - 1], k) + One(IsReservation(ops[|ops| - 1], k))
  }

  /** A month's counter of a repeat buyer counts the reservations made for that buyer on that channel in that month. */
  lemma {:induction false} MonthCountsReservations(ops: seq<Op>, k: LedgerKey)
    requires k.window.ByMonth?
    ensures Count(Run(Initial, ops).ledger, k) == CountReservations(ops, k)
  {
    if ops != [] { MonthCountsReservations(ops[..|ops| - 1], k); }
  }

  // ---- the month's total

  /** The sum of the counters named in `keys`. */
  ghost function Total(usage: map<UsageKey, nat>, keys: set<UsageKey>): nat {
    if keys == {} then 0 else var k :| k in keys; Count(usage, k) + Total(usage, keys - {k})
  }

  lemma {:induction false} TotalRemoves(usage: map<UsageKey, nat>, keys: set<UsageKey>, k: UsageKey)
    requires k in keys
    ensures Total(usage, keys) == Count(usage, k) + Total(usage, keys - {k})
    decreases keys
  {
    var j :| j in keys && Total(usage, keys) == Count(usage, j) + Total(usage, keys - {j});
    if j != k {
      TotalRemoves(usage, keys - {j}, k);
      TotalRemoves(usage, keys - {k}, j);
      assert keys - {j} - {k} == keys - {k} - {j};
    }
  }

  lemma {:induction false} TotalIgnores(usage: map<UsageKey, nat>, keys: set<UsageKey>, k: UsageKey, n: nat)
    requires k !in keys
    ensures Total(usage[k := n], keys) == Total(usage, keys)
    decreases keys
  {
    if keys != {} {
      var j :| j in keys;
      TotalRemoves(usage, keys, j);
      TotalRemoves(usage[k := n], keys, j);
      TotalIgnores(usage, keys - {j}, k, n);
    }
  }

  predicate IsMessageCell(k: UsageKey, merchantId: string, month: Month) {
    k.merchantId == merchantId && k.month == month && k.usage != N8nExecution
  }

  function MessageCells(usage: map<UsageKey, nat>, merchantId: string, month: Month): set<UsageKey> {
    set k | k in usage && IsMessageCell(k, merchantId, month)
  }

  /** What the three MESSAGE_* meters of a merchant's month add up to, over all events, workflows and channels. */
  ghost function MonthTotal(usage: map<UsageKey, nat>, merchantId: string, month: Month): nat {
    Total(usage, MessageCells(usage, merchantId, month))
  }

  lemma BumpMovesTotal(usage: map<UsageKey, nat>, k: UsageKey, merchantId: string, month: Month)
    ensures MonthTotal(Bump(usage, k), merchantId, month) ==
      MonthTotal(usage, merchantId, month) + if IsMessageCell(k, merchantId, month) then 1 else 0
  {
    var cells, after := MessageCells(usage, merchantId, month), MessageCells(Bump(usage, k), merchantId, month);
    TotalIgnores(usage, cells - {k}, k, Count(usage, k) + 1);
    if IsMessageCell(k, merchantId, month) {
      assert after == (cells - {k}) + {k};
      TotalRemoves(Bump(usage, k), after, k);
      assert after - {k} == cells - {k};
      if k in cells { TotalRemoves(usage, cells, k); } else { assert cells - {k} == cells; }
    } else {
      assert after == cells == cells - {k};
    }
  }

  /** A new row adds the same to the meters of a month as to its rows. */
  lemma NewRowMovesBoth(s: State, row: LogRow, merchantId: string, month: Month)
    ensures MonthTotal(Bump(s.usage, RowUsageKey(row)), merchantId, month) - MonthTotal(s.usage, merchantId, month)
      == CountMonth(s.logs + [row], merchantId, month) - CountMonth(s.logs, merchantId, month)
  {
    assert (s.logs + [row])[..|s.logs|] == s.logs;
    BumpMovesTotal(s.usage, RowUsageKey(row), merchantId, month);
    assert IsMessageCell(RowUsageKey(row), merchantId, month) <==>
      row.merchantId == merchantId && MonthOf(row.day) == month;
  }

  lemma StepMovesBoth(s: State, op: Op, merchantId: string, month: Month)
    ensures MonthTotal(Next(s, op).usage, merchantId, month) - MonthTotal(s.usage, merchantId, month)
      == CountMonth(Next(s, op).logs, merchantId, month) - CountMonth(s.logs, merchantId, month)
  {
    match op {
      case Log(input, today) =>
        var key := MakeKey(input);
        if FindLog(s.logs, input.merchantId, key).None? {
          NewRowMovesBoth(s, LogRow(input.merchantId, key, input, today), merchantId, month);
        }
      case Execute(m, e, w, c, today) =>
        BumpMovesTotal(s.usage, UsageKey(m, MonthOf(today), N8nExecution, Or(e, "ALL"), Or(w, "ALL"), Or(c, "ALL")),
          merchantId, month);
      case Reserve(_, _, _, _) =>
    }
  }

  /** The three message meters of a month add up to the rows logged in it. */
  lemma {:induction false} MonthTotalCountsRows(ops: seq<Op>, merchantId: string, month: Month)
    ensures var s := Run(Initial, ops); MonthTotal(s.usage, merchantId, month) == CountMonth(s.logs, merchantId, month)
  {
    if ops == [] {
      assert MessageCells(map[], merchantId, month) == {};
    } else {
      var n := |ops| - 1;
      MonthTotalCountsRows(ops[..n], merchantId, month);
      StepMovesBoth(Run(Initial, ops[..n]), ops[n], merchantId, month);
    }
  }

  // ---- the callback

  datatype ChannelResult = ChannelResult(
    channel: string, provider: string, providerMessageId: string, sender: string, recipient: string, status: string,
    skipReason: string, templateKey: string)

  /** The event a callback is about, with what the tables keyed by its event key say. `normalize` is the template
      versioning of the event, `campaigns` the merchant's campaigns. */
  datatype Source = Source(
    id: string, merchantId: string, eventKey: string, workflowKey: string, prefix: string, fallbackRecipient: string,
    channelTemplateKey: string, normalize: string -> string, campaigns: set<string>)

  datatype Callback = Callback(
    merchantId: string, processed: bool, communication: Option<Input>, communications: seq<Input>,
    channelResults: seq<ChannelResult>)

  function ResultInput(e: Source, r: ChannelResult): Input {
    var status := ToUpper(r.status);
    var reason := Trim(r.skipReason);
    var key :=
      if status == "SKIPPED" && reason != "" then e.prefix + "-skip:" + e.id + ":" + r.channel + ":" + reason
      else if r.provider != "" && r.providerMessageId != "" then "provider:" + r.provider + ":" + r.providerMessageId
      else e.prefix + "-channel:" + e.id + ":" + r.channel + ":" + status + ":" + Or(reason, "none");
    Input(e.merchantId, e.id, "", key, r.channel, Or(Trim(r.recipient), Or(Trim(r.sender), e.fallbackRecipient)),
          e.normalize(Or(Trim(r.templateKey), e.channelTemplateKey)), status, r.provider, r.providerMessageId, "", "")
  }

  function ResultInputs(e: Source, results: seq<ChannelResult>): (inputs: seq<Input>)
    ensures |inputs| == |results|
    ensures forall i :: 0 <= i < |results| ==> inputs[i] == ResultInput(e, results[i])
  {
    seq(|results|, i requires 0 <= i < |results| => ResultInput(e, results[i]))
  }

  /** Everything a callback asks to log, in the order it is logged. */
  function Inputs(e: Source, cb: Callback): seq<Input> {
    (if cb.communication.Some? then [cb.communication.value] else []) + cb.communications +
      ResultInputs(e, cb.channelResults)
  }

  function Refuses(e: Source, input: Input): Option<HttpError> {
    if input.merchantId != e.merchantId then Some(HttpError(403, "AUTOMATION_CALLBACK_MERCHANT_MISMATCH"))
    else if input.campaignId != "" && input.campaignId !in e.campaigns then
      Some(HttpError(403, "AUTOMATION_CALLBACK_CAMPAIGN_MISMATCH"))
    else None
  }

  function Adapted(e: Source, input: Input): Input {
    input.(merchantId := e.merchantId, eventId := e.id, eventKey := e.eventKey, workflowKey := e.workflowKey,
           templateKey := if input.templateKey == "" then "" else e.normalize(input.templateKey))
  }

  datatype Delivery = Delivery(state: State, rows: seq<LogRow>, error: Option<HttpError>)

  /** Logs the inputs one by one, up to the first that is refused. */
  function Deliver(s: State, e: Source, inputs: seq<Input>, today: Day): Delivery {
    if inputs == [] then Delivery(s, [], None)
    else
      var n := |inputs| - 1;
      var before := Deliver(s, e, inputs[..n], today);
      if before.error.Some? then before
      else if Refuses(e, inputs[n]).Some? then before.(error := Refuses(e, inputs[n]))
      else
        var logged := LogCommunication(before.state, Adapted(e, inputs[n]), today);
        Delivery(logged.state, before.rows + [logged.row], None)
  }

  datatype EventStatus = Queued | Processing | Dispatched | Processed | Failed | Cancelled

  /** The part of the event row that a callback may write. `stamp` is the time of the last PROCESSED write. */
  datatype EventRow = EventRow(status: EventStatus, stamp: Option<Day>)

  datatype Handled = Handled(state: State, event: EventRow, rows: seq<LogRow>, error: Option<HttpError>)

  function HandleCallback(s: State, row: EventRow, e: Source, cb: Callback, today: Day): Handled {
    if cb.merchantId != "" && cb.merchantId != e.merchantId then
      Handled(s, row, [], Some(HttpError(403, "AUTOMATION_CALLBACK_MERCHANT_MISMATCH")))
    else
      var d := Deliver(s, e, Inputs(e, cb), today);
      if d.error.Some? then Handled(d.state, row, d.rows, d.error)
      else if !cb.processed then Handled(d.state, row.(status := Failed), d.rows, None)
      else if row.status == Processed then Handled(d.state, row, d.rows, None)
      else Handled(d.state, EventRow(Processed, Some(today)), d.rows, None)
  }

  class AutomationLogs {
    var logs: seq<LogRow>
    var ledger: map<LedgerKey, nat>
    var usage: map<UsageKey, nat>

    ghost function Abstract(): State
      reads this
    {
      State(logs, ledger, usage)
    }

    constructor ()
      ensures Abstract() == Initial
    {
      logs, ledger, usage := [], map[], map[];
    }

    method Log(input: Input, today: Day) returns (row: LogRow)
      modifies this
      ensures Logged(Abstract(), row) == LogCommunication(old(Abstract()), input, today)
    {
      var key := MakeKey(input);
      var existing := FindLog(logs, input.merchantId, key);
      if existing.Some? { return existing.value; }
      row := LogRow(input.merchantId, key, input, today);
      logs := logs + [row];
      ledger := Bump(ledger, RowLedgerKey(row));
      usage := Bump(usage, RowUsageKey(row));
    }

    /** Logs one input after `done`, which has been logged already. */
    method LogCallbackCommunication(e: Source, ghost was: State, ghost done: seq<Input>, input: Input, today: Day,
        rows: seq<LogRow>)
      returns (more: seq<LogRow>, error: Option<HttpError>)
      requires Delivery(Abstract(), rows, None) == Deliver(was, e, done, today)
      modifies this
      ensures Delivery(Abstract(), more, error) == Deliver(was, e, done + [input], today)
    {
      DeliverOneMore(was, e, done, input, today);
      more := rows;
      error := Refuses(e, input);
      if error.None? {
        var row := Log(Adapted(e, input), today);
        more := rows + [row];
      }
    }

    method LogAll(e: Source, ghost was: State, ghost done: seq<Input>, inputs: seq<Input>, today: Day,
        rows: seq<LogRow>)
      returns (more: seq<LogRow>, error: Option<HttpError>)
      requires Delivery(Abstract(), rows, None) == Deliver(was, e, done, today)
      modifies this
      ensures Delivery(Abstract(), more, error) == Deliver(was, e, done + inputs, today)
    {
      more, error := rows, None;
      ghost var logged := done;
      for i := 0 to |inputs|
        invariant error == None && logged == done + inputs[..i]
        invariant Delivery(Abstract(), more, None) == Deliver(was, e, logged, today)
      {
        more, error := LogCallbackCommunication(e, was, logged, inputs[i], today, more);
        Resplit(done, inputs, i);
        logged := logged + [inputs[i]];
        if error.Some? {
          DeliverStops(was, e, logged, inputs[i + 1..], today);
          return;
        }
      }
      assert inputs[..|inputs|] == inputs;
    }

    method HandleAutomationCallback(row: EventRow, e: Source, cb: Callback, today: Day)
      returns (event: EventRow, rows: seq<LogRow>, error: Option<HttpError>)
      modifies this
      ensures Handled(Abstract(), event, rows, error) == HandleCallback(old(Abstract()), row, e, cb, today)
    {
      event, rows, error := row, [], None;
      if cb.merchantId != "" && cb.merchantId != e.merchantId {
        error := Some(HttpError(403, "AUTOMATION_CALLBACK_MERCHANT_MISMATCH"));
        return;
      }
      var first := if cb.communication.Some? then [cb.communication.value] else [];
      ghost var was := Abstract();
      assert [] + first == first;
      rows, error := LogAll(e, was, [], first, today, rows);
      if error.None? {
        rows, error := LogAll(e, was, first, cb.communications, today, rows);
      } else {
        DeliverStops(was, e, first, cb.communications, today);
      }
      if error.None? {
        rows, error := LogAll(e, was, first + cb.communications, ResultInputs(e, cb.channelResults), today, rows);
      } else {
        DeliverStops(was, e, first + cb.communications, ResultInputs(e, cb.channelResults), today);
      }
      if error.Some? { return; }
      if !cb.processed {
        event := event.(status := Failed);
      } else if row.status != Processed {
        event := EventRow(Processed, Some(today));
      }
    }
  }

  lemma DeliverOneMore(s: State, e: Source, done: seq<Input>, input: Input, today: Day)
    requires Deliver(s, e, done, today).error.None?
    ensures var before, d := Deliver(s, e, done, today), Deliver(s, e, done + [input], today);
      if Refuses(e, input).Some? then d == before.(error := Refuses(e, input))
      else
        var logged := LogCommunication(before.state, Adapted(e, input), today);
        d == Delivery(logged.state, before.rows + [logged.row], None)
  {
    assert (done + [input])[..|done|] == done;
  }

  lemma Resplit(done: seq<Input>, inputs: seq<Input>, i: nat)
    requires i < |inputs|
    ensures done + inputs[..i] + [inputs[i]] == done + inputs[..i + 1]
    ensures done + inputs[..i] + [inputs[i]] + inputs[i + 1..] == done + inputs
  {
    assert inputs[..i + 1] == inputs[..i] + [inputs[i]];
    assert inputs == inputs[..i] + [inputs[i]] + inputs[i + 1..];
  }

  /** A refused input stops the delivery: nothing after it is logged. */
  lemma {:induction false} DeliverStops(s: State, e: Source, done: seq<Input>, rest: seq<Input>, today: Day)
    requires Deliver(s, e, done, today).error.Some?
    ensures Deliver(s, e, done + rest, today) == Deliver(s, e, done, today)
  {
    if rest == [] {
      assert done + rest == done;
    } else {
      DeliverStops(s, e, done, rest[..|rest| - 1], today);
      assert (done + rest)[..|done + rest| - 1] == done + rest[..|rest| - 1];
    }
  }

  // ---- replays

  /** `t` holds every row of `s`, each where it was. */
  predicate Extends(s: State, t: State) { s.logs <= t.logs }

  lemma {:induction false} FoundStaysFound(a: seq<LogRow>, b: seq<LogRow>, merchantId: string, key: string)
    requires a <= b && FindLog(a, merchantId, key).Some?
    ensures FindLog(b, merchantId, key) == FindLog(a, merchantId, key)
  {
    assert a != [] ==> a[1..] <= b[1..];
    if !(a[0].merchantId == merchantId && a[0].key == key) {
      FoundStaysFound(a[1..], b[1..], merchantId, key);
    }
  }

  lemma LoggedIsFound(s: State, input: Input, today: Day)
    ensures var r := LogCommunication(s, input, today);
      FindLog(r.state.logs, input.merchantId, MakeKey(input)) == Some(r.row) && Extends(s, r.state)
  {
    var key := MakeKey(input);
    if FindLog(s.logs, input.merchantId, key).None? {
      NewIsFound(s.logs, LogRow(input.merchantId, key, input, today));
    }
  }

  lemma {:induction false} NewIsFound(logs: seq<LogRow>, row: LogRow)
    requires FindLog(logs, row.merchantId, row.key).None?
    ensures FindLog(logs + [row], row.merchantId, row.key) == Some(row)
  {
    if logs == [] {
      assert logs + [row] == [row];
    } else {
      NewIsFound(logs[1..], row);
      assert (logs + [row])[1..] == logs[1..] + [row];
    }
  }

  /** Delivering the same inputs into any later state writes nothing and returns the rows of the first delivery. */
  lemma {:induction false} RedeliveryIsSilent(s: State, e: Source, inputs: seq<Input>, first: Day, later: State,
      second: Day)
    requires Extends(Deliver(s, e, inputs, first).state, later)
    ensures Extends(s, Deliver(s, e, inputs, first).state)
    ensures Deliver(later, e, inputs, second) == Deliver(s, e, inputs, first).(state := later)
  {
    if inputs != [] {
      var n := |inputs| - 1;
      var before := Deliver(s, e, inputs[..n], first);
      var after := Deliver(s, e, inputs, first);
      if before.error.None? && Refuses(e, inputs[n]).None? {
        LoggedIsFound(before.state, Adapted(e, inputs[n]), first);
        FoundStaysFound(after.state.logs, later.logs, e.merchantId, MakeKey(Adapted(e, inputs[n])));
      }
      RedeliveryIsSilent(s, e, inputs[..n], first, later, second);
    }
  }

  lemma {:induction false} RunExtends(s: State, ops: seq<Op>)
    ensures Extends(s, Run(s, ops))
  {
    if ops != [] {
      RunExtends(s, ops[..|ops| - 1]);
    }
  }

  /** Replaying a callback, whatever was logged in between and however often its lists repeat themselves, changes
      no log, ledger or meter, returns the rows of the first delivery and fails as it failed. */
  lemma {:induction false} ReplayIsIdempotent(s: State, row: EventRow, e: Source, cb: Callback, first: Day,
      ops: seq<Op>, second: Day)
    ensures var once := HandleCallback(s, row, e, cb, first);
      var later := Run(once.state, ops);
      var twice := HandleCallback(later, once.event, e, cb, second);
      && twice.state == later
      && twice.rows == once.rows
      && twice.error == once.error
      && (cb.processed || once.error.Some? ==> twice.event == once.event)
  {
    var once := HandleCallback(s, row, e, cb, first);
    RunExtends(once.state, ops);
    if !(cb.merchantId != "" && cb.merchantId != e.merchantId) {
      RedeliveryIsSilent(s, e, Inputs(e, cb), first, Run(once.state, ops), second);
    }
  }

  /** A PROCESSED callback that is accepted leaves the event processed, and each of its inputs logged. */
  lemma AcceptedCallbackLogsAll(s: State, row: EventRow, e: Source, cb: Callback, today: Day, i: nat)
    ensures var h := HandleCallback(s, row, e, cb, today);
      cb.processed && h.error.None? && i < |Inputs(e, cb)| ==>
        && h.event.status == Processed
        && i < |h.rows|
        && FindLog(h.state.logs, e.merchantId, MakeKey(Adapted(e, Inputs(e, cb)[i]))) == Some(h.rows[i])
  {
    if HandleCallback(s, row, e, cb, today).error.None? && i < |Inputs(e, cb)| {
      DeliveredIsFound(s, e, Inputs(e, cb), today, i);
    }
  }

  lemma LastDelivered(s: State, e: Source, inputs: seq<Input>, today: Day)
    requires inputs != [] && Deliver(s, e, inputs, today).error.None?
    ensures var d := Deliver(s, e, inputs, today);
      d.rows != [] && FindLog(d.state.logs, e.merchantId, MakeKey(Adapted(e, inputs[|inputs| - 1]))) ==
        Some(d.rows[|d.rows| - 1])
  {
    var n := |inputs| - 1;
    LoggedIsFound(Deliver(s, e, inputs[..n], today).state, Adapted(e, inputs[n]), today);
  }

  /** Of an accepted delivery every beginning is accepted, and what it logged stays. */
  lemma {:induction false} DeliverPrefix(s: State, e: Source, inputs: seq<Input>, today: Day, m: nat)
    requires m <= |inputs| && Deliver(s, e, inputs, today).error.None?
    ensures var before, d := Deliver(s, e, inputs[..m], today), Deliver(s, e, inputs, today);
      before.error.None? && before.rows <= d.rows && before.state.logs <= d.state.logs
    decreases |inputs|
  {
    if m < |inputs| {
      DeliverPrefix(s, e, inputs[..|inputs| - 1], today, m);
      assert inputs[..|inputs| - 1][..m] == inputs[..m];
    } else {
      assert inputs[..m] == inputs;
    }
  }

  lemma DeliveredIsFound(s: State, e: Source, inputs: seq<Input>, today: Day, i: nat)
    requires i < |inputs| && Deliver(s, e, inputs, today).error.None?
    ensures var d := Deliver(s, e, inputs, today);
      i < |d.rows| == |inputs| && FindLog(d.state.logs, e.merchantId, MakeKey(Adapted(e, inputs[i]))) == Some(d.rows[i])
  {
    var begun := inputs[..i + 1];
    DeliverLength(s, e, inputs, today);
    DeliverLength(s, e, begun, today);
    DeliverPrefix(s, e, inputs, today, i + 1);
    LastDelivered(s, e, begun, today);
    var key := MakeKey(Adapted(e, inputs[i]));
    StillFound(Deliver(s, e, begun, today), Deliver(s, e, inputs, today), e.merchantId, key, i);
  }

  lemma StillFound(before: Delivery, d: Delivery, merchantId: string, key: string, i: nat)
    requires before.state.logs <= d.state.logs && before.rows <= d.rows
    requires i < |before.rows| && FindLog(before.state.logs, merchantId, key) == Some(before.rows[i])
    ensures FindLog(d.state.logs, merchantId, key) == Some(d.rows[i])
  {
    FoundStaysFound(before.state.logs, d.state.logs, merchantId, key);
  }

  lemma {:induction false} DeliverLength(s: State, e: Source, inputs: seq<Input>, today: Day)
    ensures Deliver(s, e, inputs, today).error.None? ==> |Deliver(s, e, inputs, today).rows| == |inputs|
  {
    if inputs != [] { DeliverLength(s, e, inputs[..|inputs| - 1], today); }
  }
}
