/** What a callback leaves behind (`autopilot.service.ts`, `handleAutomationCallback`): when it is refused, what it
    writes to the event, whose its rows are, and when two of its channel results are one message. */
module CommunicationCallbacks {
  import opened Base
  import opened Text
  import opened CommunicationLog

  // ---- when it is refused

  /** The input may be logged for the event: it is the event's merchant's, and its campaign, if it names one, is too. */
  predicate Belongs(e: Source, input: Input) {
    input.merchantId == e.merchantId && (input.campaignId == "" || input.campaignId in e.campaigns)
  }

  /** The first of the inputs that does not belong to the event. */
  predicate FirstStranger(e: Source, inputs: seq<Input>, i: nat) {
    i < |inputs| && !Belongs(e, inputs[i]) && forall j :: 0 <= j < i ==> Belongs(e, inputs[j])
  }

  function StrangerError(e: Source, input: Input): HttpError {
    HttpError(403, if input.merchantId == e.merchantId then "AUTOMATION_CALLBACK_CAMPAIGN_MISMATCH"
                   else "AUTOMATION_CALLBACK_MERCHANT_MISMATCH")
  }

  lemma RefusesStrangers(e: Source, input: Input)
    ensures Refuses(e, input) == if Belongs(e, input) then None else Some(StrangerError(e, input))
  {
  }

  /** How a delivery went: all logged, or stopped at the first stranger. */
  predicate Went(e: Source, inputs: seq<Input>, logged: nat, error: Option<HttpError>) {
    match error
    case None => logged == |inputs| && forall i :: 0 <= i < |inputs| ==> Belongs(e, inputs[i])
    case Some(x) => FirstStranger(e, inputs, logged) && x == StrangerError(e, inputs[logged])
  }

  lemma WentOn(e: Source, inputs: seq<Input>, logged: nat, error: Option<HttpError>)
    requires inputs != [] && Went(e, inputs[..|inputs| - 1], logged, error)
    ensures error.Some? ==> Went(e, inputs, logged, error)
    ensures error.None? ==> var last := inputs[|inputs| - 1];
      if Belongs(e, last) then Went(e, inputs, logged + 1, None)
      else Went(e, inputs, logged, Some(StrangerError(e, last)))
  {
    assert forall i :: 0 <= i < |inputs| - 1 ==> inputs[i] == inputs[..|inputs| - 1][i];
  }

  /** A delivery fails exactly at the first input that does not belong to the event, with the inputs before it
      logged. */
  lemma {:induction false} DeliveryFailsAtFirstStranger(s: State, e: Source, inputs: seq<Input>, today: Day)
    ensures Went(e, inputs, |Deliver(s, e, inputs, today).rows|, Deliver(s, e, inputs, today).error)
  {
    if inputs != [] {
      var n := |inputs| - 1;
      var before := Deliver(s, e, inputs[..n], today);
      DeliveryFailsAtFirstStranger(s, e, inputs[..n], today);
      WentOn(e, inputs, |before.rows|, before.error);
      RefusesStrangers(e, inputs[n]);
    }
  }

  lemma ResultsBelong(e: Source, results: seq<ChannelResult>)
    ensures forall i :: 0 <= i < |results| ==> Belongs(e, ResultInputs(e, results)[i])
  {
  }

  /** A callback is accepted exactly when it is sent for the event's merchant, or for none, and each of its
      messages belongs to the event; its channel results always do. */
  lemma CallbackAcceptedIff(s: State, row: EventRow, e: Source, cb: Callback, today: Day)
    ensures HandleCallback(s, row, e, cb, today).error.None? <==>
      && (cb.merchantId == "" || cb.merchantId == e.merchantId)
      && (cb.communication.Some? ==> Belongs(e, cb.communication.value))
      && (forall i :: 0 <= i < |cb.communications| ==> Belongs(e, cb.communications[i]))
    ensures HandleCallback(s, row, e, cb, today).error.Some? ==>
      var x := HandleCallback(s, row, e, cb, today).error.value;
      && x.status == 403
      && (cb.merchantId != "" && cb.merchantId != e.merchantId ==> x.code == "AUTOMATION_CALLBACK_MERCHANT_MISMATCH")
  {
    var first := if cb.communication.Some? then [cb.communication.value] else [];
    var results := ResultInputs(e, cb.channelResults);
    ResultsBelong(e, cb.channelResults);
    DeliveryFailsAtFirstStranger(s, e, Inputs(e, cb), today);
    assert Inputs(e, cb) == first + cb.communications + results;
    AllOfThree(e, first, cb.communications, results);
    assert cb.communication.Some? ==> first[0] == cb.communication.value;
  }

  lemma AllOfThree(e: Source, a: seq<Input>, b: seq<Input>, c: seq<Input>)
    ensures (forall i :: 0 <= i < |a + b + c| ==> Belongs(e, (a + b + c)[i])) <==>
      && (forall i :: 0 <= i < |a| ==> Belongs(e, a[i])) && (forall i :: 0 <= i < |b| ==> Belongs(e, b[i]))
      && (forall i :: 0 <= i < |c| ==> Belongs(e, c[i]))
  {
    var whole := a + b + c;
    assert forall i :: 0 <= i < |a| ==> a[i] == whole[i];
    assert forall i :: 0 <= i < |b| ==> b[i] == whole[|a| + i];
    assert forall i :: 0 <= i < |c| ==> c[i] == whole[|a| + |b| + i];
  }

  /** What it writes to the event: nothing when it is refused; FAILED when it reports a failure, whatever the event was;
      PROCESSED, stamped now, when it reports success and the event is not processed yet. */
  lemma CallbackWritesEvent(s: State, row: EventRow, e: Source, cb: Callback, today: Day)
    ensures var h := HandleCallback(s, row, e, cb, today);
      && (h.error.Some? ==> h.event == row)
      && (h.error.None? && !cb.processed ==> h.event.status == Failed && h.event.stamp == row.stamp)
      && (h.error.None? && cb.processed && row.status == Processed ==> h.event == row)
      && (h.error.None? && cb.processed && row.status != Processed ==>
            h.event.status == Processed && h.event.stamp == Some(today))
  {
  }

  // ---- whose rows

  /** The row says what the input said, for the event and under the day of the callback. */
  predicate RowOf(e: Source, input: Input, today: Day, row: LogRow) {
    && row.merchantId == e.merchantId && row.day == today
    && row.input.eventId == e.id && row.input.eventKey == e.eventKey && row.input.workflowKey == e.workflowKey
    && row.input.campaignId == input.campaignId && row.input.channel == input.channel
    && row.input.recipient == input.recipient && row.input.status == input.status
    && row.input.provider == input.provider && row.input.providerMessageId == input.providerMessageId
    && row.input.idempotencyKey == input.idempotencyKey
    && row.input.templateKey == (if input.templateKey == "" then "" else e.normalize(input.templateKey))
  }

  /** Every row that a callback adds is one of its inputs', filed for the source event, its merchant and its workflow,
      whatever the input itself said of these. */
  lemma {:induction false} NewRowsAreTheEvents(s: State, e: Source, inputs: seq<Input>, today: Day, row: LogRow)
    requires row in Deliver(s, e, inputs, today).state.logs && row !in s.logs
    ensures exists i :: 0 <= i < |inputs| && RowOf(e, inputs[i], today, row)
  {
    if inputs != [] {
      var n := |inputs| - 1;
      if row in Deliver(s, e, inputs[..n], today).state.logs {
        NewRowsAreTheEvents(s, e, inputs[..n], today, row);
        var i :| 0 <= i < n && RowOf(e, inputs[..n][i], today, row);
        assert inputs[i] == inputs[..n][i];
      } else {
        assert RowOf(e, inputs[n], today, row);
      }
    }
  }

  /** A channel result is filed for its own channel, with its status in capitals, for its recipient, else its
      sender, else the event's fallback, under its own template, else the channel's. */
  lemma ResultIsFiled(e: Source, r: ChannelResult)
    ensures var i := ResultInput(e, r);
      && i.merchantId == e.merchantId && i.eventId == e.id && i.campaignId == "" && i.channel == r.channel
      && i.status == ToUpper(r.status) && i.provider == r.provider && i.providerMessageId == r.providerMessageId
      && (Trim(r.recipient) != "" ==> i.recipient == Trim(r.recipient))
      && (Trim(r.recipient) == "" && Trim(r.sender) != "" ==> i.recipient == Trim(r.sender))
      && (Trim(r.recipient) == "" && Trim(r.sender) == "" ==> i.recipient == e.fallbackRecipient)
      && i.templateKey == e.normalize(if Trim(r.templateKey) == "" then e.channelTemplateKey else Trim(r.templateKey))
  {
  }

  // ---- when two channel results are one message

  predicate Skips(r: ChannelResult) { ToUpper(r.status) == "SKIPPED" && Trim(r.skipReason) != "" }

  predicate Names(r: ChannelResult) { r.provider != "" && r.providerMessageId != "" }

  /** The prefix of the event's workflow, as the source has them: it begins with a letter. */
  predicate Sensible(e: Source) { e.prefix != "" && !IsSpace(e.prefix[0]) }

  lemma TrimKeeps(s: string)
    requires s != "" && !IsSpace(s[0]) && !IsSpace(s[|s| - 1])
    ensures Trim(s) == s
  {
  }

  lemma SkipKeyIs(e: Source, r: ChannelResult)
    requires Sensible(e) && Skips(r)
    ensures MakeKey(ResultInput(e, r)) ==
      e.prefix + ("-skip:" + (e.id + [':'] + (r.channel + [':'] + Trim(r.skipReason))))
  {
    var key := e.prefix + "-skip:" + e.id + ":" + r.channel + ":" + Trim(r.skipReason);
    EndsPlain(e.prefix + "-skip:" + e.id + ":" + r.channel + ":", Trim(r.skipReason));
    TrimKeeps(key);
    Nested(e.prefix, "-skip:", e.id, r.channel, Trim(r.skipReason));
  }

  /** The reason of a result, "none" without one. */
  function Reason(r: ChannelResult): string { if Trim(r.skipReason) == "" then "none" else Trim(r.skipReason) }

  lemma ChannelKeyIs(e: Source, r: ChannelResult)
    requires Sensible(e) && !Skips(r) && !Names(r)
    ensures MakeKey(ResultInput(e, r)) ==
      e.prefix + ("-channel:" + (e.id + [':'] + (r.channel + [':'] + (ToUpper(r.status) + [':'] + Reason(r)))))
  {
    var key := e.prefix + "-channel:" + e.id + ":" + r.channel + ":" + ToUpper(r.status) + ":" + Reason(r);
    var end := ToUpper(r.status) + [':'] + Reason(r);
    Nested(e.prefix, "-channel:", e.id, r.channel, end);
    assert key == e.prefix + "-channel:" + e.id + ":" + r.channel + ":" + end;
    EndsPlain(e.prefix + "-channel:" + e.id + ":" + r.channel + ":" + ToUpper(r.status) + ":", Reason(r));
    TrimKeeps(key);
  }

  lemma Nested(p: string, q: string, id: string, channel: string, end: string)
    ensures p + q + id + ":" + channel + ":" + end == p + (q + (id + [':'] + (channel + [':'] + end)))
  {
    assert channel + ":" + end == channel + [':'] + end;
    assert id + ":" + channel + ":" + end == id + [':'] + (channel + [':'] + end);
  }

  lemma EndsPlain(start: string, end: string)
    requires start != "" && !IsSpace(start[0]) && end != "" && !IsSpace(end[|end| - 1])
    ensures !IsSpace((start + end)[0]) && !IsSpace((start + end)[|start + end| - 1])
  {
    assert (start + end)[0] == start[0] && (start + end)[|start + end| - 1] == end[|end| - 1];
  }

  /** Two skips of one event are logged as one exactly when they are on the same channel for the same reason. */
  lemma SkipsAreOneIff(e: Source, a: ChannelResult, b: ChannelResult)
    requires Sensible(e) && Skips(a) && Skips(b) && Free(':', a.channel) && Free(':', b.channel)
    ensures MakeKey(ResultInput(e, a)) == MakeKey(ResultInput(e, b)) <==>
      a.channel == b.channel && Trim(a.skipReason) == Trim(b.skipReason)
  {
    var x, y := a.channel + [':'] + Trim(a.skipReason), b.channel + [':'] + Trim(b.skipReason);
    SkipKeyIs(e, a);
    SkipKeyIs(e, b);
    SamePrefix(e.prefix, "-skip:" + (e.id + [':'] + x), "-skip:" + (e.id + [':'] + y));
    SamePrefix("-skip:", e.id + [':'] + x, e.id + [':'] + y);
    SamePrefix(e.id + [':'], x, y);
    FirstPart(a.channel, Trim(a.skipReason), b.channel, Trim(b.skipReason), ':');
  }

  /** Two results of one event without a provider's message are logged as one exactly when they are on the same
      channel with the same status, in whatever case, and the same reason, where none counts as "none". */
  lemma ResultsAreOneIff(e: Source, a: ChannelResult, b: ChannelResult)
    requires Sensible(e) && !Skips(a) && !Names(a) && !Skips(b) && !Names(b)
    requires Free(':', a.channel) && Free(':', b.channel)
    requires Free(':', ToUpper(a.status)) && Free(':', ToUpper(b.status))
    ensures MakeKey(ResultInput(e, a)) == MakeKey(ResultInput(e, b)) <==>
      a.channel == b.channel && ToUpper(a.status) == ToUpper(b.status) && Reason(a) == Reason(b)
  {
    var s, t := ToUpper(a.status) + [':'] + Reason(a), ToUpper(b.status) + [':'] + Reason(b);
    var x, y := a.channel + [':'] + s, b.channel + [':'] + t;
    ChannelKeyIs(e, a);
    ChannelKeyIs(e, b);
    SamePrefix(e.prefix, "-channel:" + (e.id + [':'] + x), "-channel:" + (e.id + [':'] + y));
    SamePrefix("-channel:", e.id + [':'] + x, e.id + [':'] + y);
    SamePrefix(e.id + [':'], x, y);
    FirstPart(a.channel, s, b.channel, t, ':');
    FirstPart(ToUpper(a.status), Reason(a), ToUpper(b.status), Reason(b), ':');
  }

  /** A skip and another result of one event are never logged as one. */
  lemma SkipIsNoOtherResult(e: Source, a: ChannelResult, b: ChannelResult)
    requires Sensible(e) && Skips(a) && !Skips(b) && !Names(b)
    ensures MakeKey(ResultInput(e, a)) != MakeKey(ResultInput(e, b))
  {
    SkipKeyIs(e, a);
    ChannelKeyIs(e, b);
    SkipIsNoChannel(e.prefix, e.id + [':'] + (a.channel + [':'] + Trim(a.skipReason)),
      e.id + [':'] + (b.channel + [':'] + (ToUpper(b.status) + [':'] + Reason(b))));
  }

  lemma SkipIsNoChannel(p: string, x: string, y: string)
    ensures p + ("-skip:" + x) != p + ("-channel:" + y)
  {
    var s, t := "-skip:" + x, "-channel:" + y;
    assert s[1] == 's' && t[1] == 'c';
    SamePrefix(p, s, t);
  }

  /** A result that names a provider's message is logged as that message, whoever logs it first, exactly if the
      message id does not end in a blank, which the result's key loses and the message's own keeps. */
  lemma ResultIsItsMessageIff(e: Source, r: ChannelResult, m: Input)
    requires !Skips(r) && Names(r) && ByProvider(m)
    requires m.provider == r.provider && m.providerMessageId == r.providerMessageId
    ensures MakeKey(ResultInput(e, r)) == MakeKey(m) <==> !IsSpace(r.providerMessageId[|r.providerMessageId| - 1])
  {
    var key := "provider:" + r.provider + ":" + r.providerMessageId;
    assert key == MakeKey(m) && ResultInput(e, r).idempotencyKey == key;
    assert key[0] == 'p' && key[|key| - 1] == r.providerMessageId[|r.providerMessageId| - 1];
    KeyStartsPlain(key);
    if !IsSpace(key[|key| - 1]) { TrimKeeps(key); }
  }

  lemma KeyStartsPlain(key: string)
    requires key != "" && key[0] == 'p'
    ensures Trim(key) != "" && (IsSpace(key[|key| - 1]) ==> Trim(key) != key)
  {
    assert TrimStart(key) == key;
    NotAllBlank(key);
  }

  lemma {:induction false} NotAllBlank(s: string)
    requires s != "" && !IsSpace(s[0])
    ensures TrimEnd(s) != ""
    decreases |s|
  {
    if IsSpace(s[|s| - 1]) { NotAllBlank(s[..|s| - 1]); }
  }
}
