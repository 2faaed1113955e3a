/** The deduplicated address book of a shopper (`checkout-address-graph.service.ts`, the persist, and
    `checkout-address-prefill.service.ts`, the selection). Each call is one step. */
module AddressBook {
  import opened Base

  /** What a persist may leave open: a null does not overwrite what is stored. */
  datatype Extras = Extras(line2: Option<string>, landmark: Option<string>, lat: Option<real>, lng: Option<real>,
      placeId: Option<string>)

  datatype Details = Details(fullName: string, city: string, state: string, source: string)

  /** A validated payload with its pincode resolved. `quality` is 0 to 3. */
  datatype Payload = Payload(pincode: string, line1: string, line1Norm: string, details: Details, extras: Extras,
      quality: nat)

  datatype Row = Row(
    shopper: string, pincode: string, line1: string, line1Norm: string, details: Details, extras: Extras, quality: nat,
    useCount: nat, lastUsedAt: nat, firstMerchant: string)

  /** The table in creation order; a row's id is its place. */
  type Table = seq<Row>

  datatype Op =
    | Persist(shopper: string, merchant: string, payload: Payload, now: nat)
    | Select(shopper: string, merchant: string, id: nat, now: nat)

  datatype Outcome = Saved(id: nat, deduped: bool) | Selected(id: nat) | NotFound

  function Keep<T>(update: Option<T>, stored: Option<T>): Option<T> { if update.Some? then update else stored }

  function Merge(update: Extras, stored: Extras): Extras {
    Extras(Keep(update.line2, stored.line2), Keep(update.landmark, stored.landmark), Keep(update.lat, stored.lat),
           Keep(update.lng, stored.lng), Keep(update.placeId, stored.placeId))
  }

  predicate Matches(r: Row, shopper: string, pincode: string, line1Norm: string) {
    r.shopper == shopper && r.pincode == pincode && r.line1Norm == line1Norm
  }

  /** The most recently used of the matching rows, as the query orders them. */
  function FindMatch(rows: Table, shopper: string, pincode: string, line1Norm: string): (i: Option<nat>)
    ensures i.Some? ==> i.value < |rows| && Matches(rows[i.value], shopper, pincode, line1Norm)
    ensures i.Some? ==> forall k :: 0 <= k < |rows| && Matches(rows[k], shopper, pincode, line1Norm) ==>
      rows[k].lastUsedAt <= rows[i.value].lastUsedAt
    ensures i.None? ==> forall k :: 0 <= k < |rows| ==> !Matches(rows[k], shopper, pincode, line1Norm)
  {
    if rows == [] then None
    else
      var n := |rows| - 1;
      var earlier := FindMatch(rows[..n], shopper, pincode, line1Norm);
      if !Matches(rows[n], shopper, pincode, line1Norm) then earlier
      else if earlier.Some? && rows[earlier.value].lastUsedAt > rows[n].lastUsedAt then earlier
      else Some(n)
  }

  datatype Stepped = Stepped(rows: Table, outcome: Outcome)

  function PersistStep(rows: Table, shopper: string, merchant: string, p: Payload, now: nat): Stepped {
    var existing := FindMatch(rows, shopper, p.pincode, p.line1Norm);
    match existing
    case Some(i) =>
      var r := rows[i];
      Stepped(rows[i := r.(details := p.details, extras := Merge(p.extras, r.extras),
                          quality := Max(r.quality, p.quality),
                          useCount := r.useCount + 1, lastUsedAt := now)],
              Saved(i, true))
    case None =>
      Stepped(rows + [Row(shopper, p.pincode, p.line1, p.line1Norm, p.details, p.extras, p.quality, 1, now, merchant)],
              Saved(|rows|, false))
  }

  function SelectStep(rows: Table, shopper: string, merchant: string, id: nat, now: nat): Stepped {
    if id >= |rows| || rows[id].shopper != shopper || rows[id].firstMerchant != merchant then Stepped(rows, NotFound)
    else Stepped(rows[id := rows[id].(useCount := rows[id].useCount + 1, lastUsedAt := now)], Selected(id))
  }

  function Step(rows: Table, op: Op): Stepped {
    match op
    case Persist(shopper, merchant, payload, now) => PersistStep(rows, shopper, merchant, payload, now)
    case Select(shopper, merchant, id, now) => SelectStep(rows, shopper, merchant, id, now)
  }

  function Run(ops: seq<Op>): Table {
    if ops == [] then [] else var n := |ops| - 1; Step(Run(ops[..n]), ops[n]).rows
  }

  class ShopperAddresses {
    var rows: Table

    constructor ()
      ensures rows == []
    {
      rows := [];
    }

    method PersistAddress(shopper: string, merchant: string, p: Payload, now: nat) returns (outcome: Outcome)
      modifies this
      ensures Stepped(rows, outcome) == Step(old(rows), Persist(shopper, merchant, p, now))
    {
      var existing := FindMatch(rows, shopper, p.pincode, p.line1Norm);
      if existing.Some? {
        var i := existing.value;
        var update := rows[i].(details := p.details, quality := Max(rows[i].quality, p.quality),
                               useCount := rows[i].useCount + 1, lastUsedAt := now);
        if p.extras.line2.Some? { update := update.(extras := update.extras.(line2 := p.extras.line2)); }
        if p.extras.landmark.Some? { update := update.(extras := update.extras.(landmark := p.extras.landmark)); }
        if p.extras.lat.Some? { update := update.(extras := update.extras.(lat := p.extras.lat)); }
        if p.extras.lng.Some? { update := update.(extras := update.extras.(lng := p.extras.lng)); }
        if p.extras.placeId.Some? { update := update.(extras := update.extras.(placeId := p.extras.placeId)); }
        rows := rows[i := update];
        return Saved(i, true);
      }
      outcome := Saved(|rows|, false);
      rows := rows + [Row(shopper, p.pincode, p.line1, p.line1Norm, p.details, p.extras, p.quality, 1, now, merchant)];
    }

    method SelectSameMerchantAddress(shopper: string, merchant: string, id: nat, now: nat) returns (outcome: Outcome)
      modifies this
      ensures Stepped(rows, outcome) == Step(old(rows), Select(shopper, merchant, id, now))
    {
      if id >= |rows| || rows[id].shopper != shopper || rows[id].firstMerchant != merchant { return NotFound; }
      rows := rows[id := rows[id].(useCount := rows[id].useCount + 1, lastUsedAt := now)];
      return Selected(id);
    }
  }

  // ---- what the history of answers says about a row

  datatype Event = Event(op: Op, outcome: Outcome)

  function History(ops: seq<Op>): (h: seq<Event>)
    ensures |h| == |ops|
  {
    if ops == [] then []
    else
      var n := |ops| - 1;
      History(ops[..n]) + [Event(ops[n], Step(Run(ops[..n]), ops[n]).outcome)]
  }

  predicate Used(e: Event, id: nat) {
    (e.outcome.Saved? && e.outcome.id == id) || e.outcome == Selected(id)
  }

  predicate Saves(e: Event, id: nat) { e.op.Persist? && e.outcome.Saved? && e.outcome.id == id }

  /** How many persists and selections were answered with the row. */
  function Uses(h: seq<Event>, id: nat): nat {
    if h == [] then 0 else Uses(h[..|h| - 1], id) + if Used(h[|h| - 1], id) then 1 else 0
  }

  /** The best quality any persist submitted for the row. */
  function BestQuality(h: seq<Event>, id: nat): nat {
    if h == [] then 0
    else
      var e := h[|h| - 1];
      Max(BestQuality(h[..|h| - 1], id), if Saves(e, id) then e.op.payload.quality else 0)
  }

  /** The first persist that was answered with the row. */
  function FirstSave(h: seq<Event>, id: nat): (op: Option<Op>)
    ensures op.Some? ==> op.value.Persist?
  {
    if h == [] then None
    else
      var earlier := FirstSave(h[..|h| - 1], id);
      if earlier.Some? then earlier else if Saves(h[|h| - 1], id) then Some(h[|h| - 1].op) else None
  }

  /** The row was created by the operation. */
  predicate CreatedBy(r: Row, op: Option<Op>) {
    && op.Some? && op.value.Persist?
    && op.value.merchant == r.firstMerchant && op.value.shopper == r.shopper && op.value.payload.line1 == r.line1
    && op.value.payload.pincode == r.pincode && op.value.payload.line1Norm == r.line1Norm
  }

  /** The last value that any persist of the row gave for an optional field. */
  function LastGiven<T>(h: seq<Event>, id: nat, field: Extras -> Option<T>): Option<T> {
    if h == [] then None
    else
      var e := h[|h| - 1];
      if Saves(e, id) && field(e.op.payload.extras).Some? then field(e.op.payload.extras)
      else LastGiven(h[..|h| - 1], id, field)
  }

  const Line2 := (x: Extras) => x.line2
  const Landmark := (x: Extras) => x.landmark
  const Lat := (x: Extras) => x.lat
  const Lng := (x: Extras) => x.lng
  const PlaceId := (x: Extras) => x.placeId

  /** Each optional field is the last value given for it: a persist that leaves it open does not take it away. */
  predicate KeepsExtras(extras: Extras, h: seq<Event>, id: nat) {
    && extras.line2 == LastGiven(h, id, Line2) && extras.landmark == LastGiven(h, id, Landmark)
    && extras.lat == LastGiven(h, id, Lat) && extras.lng == LastGiven(h, id, Lng)
    && extras.placeId == LastGiven(h, id, PlaceId)
  }

  /** The last persist of the row. */
  function LastSave(h: seq<Event>, id: nat): Option<Payload> {
    if h == [] then None
    else if Saves(h[|h| - 1], id) then Some(h[|h| - 1].op.payload)
    else LastSave(h[..|h| - 1], id)
  }

  /** The time of the last call that was answered with the row. */
  function LastUse(h: seq<Event>, id: nat): Option<nat> {
    if h == [] then None
    else if Used(h[|h| - 1], id) then Some(h[|h| - 1].op.now)
    else LastUse(h[..|h| - 1], id)
  }

  predicate OneRowPerAddress(rows: Table) {
    forall i, j :: 0 <= i < j < |rows| ==> !Matches(rows[j], rows[i].shopper, rows[i].pincode, rows[i].line1Norm)
  }

  ghost predicate RowExplained(r: Row, h: seq<Event>, id: nat) {
    && r.useCount == Uses(h, id)
    && r.quality == BestQuality(h, id)
    && CreatedBy(r, FirstSave(h, id))
    && KeepsExtras(r.extras, h, id)
    && LastSave(h, id).Some? && r.details == LastSave(h, id).value.details
    && LastUse(h, id) == Some(r.lastUsedAt)
    && forall k :: 0 <= k < |h| && Saves(h[k], id) ==>
         Matches(r, h[k].op.shopper, h[k].op.payload.pincode, h[k].op.payload.line1Norm)
  }

  /** Nothing was ever answered with an id that has no row. */
  ghost predicate Unused(h: seq<Event>, from: nat) {
    forall k :: 0 <= k < |h| ==> forall id: nat :: id >= from ==> !Used(h[k], id)
  }

  ghost predicate Explained(rows: Table, h: seq<Event>) {
    && OneRowPerAddress(rows)
    && Unused(h, |rows|)
    && forall id :: 0 <= id < |rows| ==> RowExplained(rows[id], h, id)
  }

  lemma {:induction false} UnusedHasNothing(h: seq<Event>, from: nat, id: nat)
    requires Unused(h, from) && id >= from
    ensures Uses(h, id) == 0 && BestQuality(h, id) == 0 && FirstSave(h, id).None?
    ensures KeepsExtras(Extras(None, None, None, None, None), h, id) && LastSave(h, id).None? && LastUse(h, id).None?
  {
    if h != [] {
      assert !Used(h[|h| - 1], id);
      UnusedHasNothing(h[..|h| - 1], from, id);
    }
  }

  lemma GrownRow(r: Row, s: Row, h: seq<Event>, e: Event, id: nat)
    requires RowExplained(r, h, id)
    requires s.shopper == r.shopper && s.pincode == r.pincode && s.line1Norm == r.line1Norm &&
      s.firstMerchant == r.firstMerchant && s.line1 == r.line1
    requires s.useCount == r.useCount + if Used(e, id) then 1 else 0
    requires Saves(e, id) ==> Matches(r, e.op.shopper, e.op.payload.pincode, e.op.payload.line1Norm)
    requires s.quality == Max(r.quality, if Saves(e, id) then e.op.payload.quality else 0)
    requires s.extras == if Saves(e, id) then Merge(e.op.payload.extras, r.extras) else r.extras
    requires s.details == if Saves(e, id) then e.op.payload.details else r.details
    requires s.lastUsedAt == if Used(e, id) then e.op.now else r.lastUsedAt
    ensures RowExplained(s, h + [e], id)
  {
    var g := h + [e];
    assert g[..|h|] == h && g[|h|] == e;
  }

  lemma PersistExplains(rows: Table, h: seq<Event>, op: Op)
    requires Explained(rows, h) && op.Persist?
    ensures Explained(Step(rows, op).rows, h + [Event(op, Step(rows, op).outcome)])
  {
    var e := Event(op, Step(rows, op).outcome);
    var t, g := Step(rows, op).rows, h + [e];
    var existing := FindMatch(rows, op.shopper, op.payload.pincode, op.payload.line1Norm);
    forall id | 0 <= id < |rows| ensures RowExplained(t[id], g, id) { GrownRow(rows[id], t[id], h, e, id); }
    if existing.None? {
      var id := |rows|;
      UnusedHasNothing(h, id, id);
      assert g[..|h|] == h && g[|h|] == e;
      forall k | 0 <= k < |h| ensures !Saves(g[k], id) { assert !Used(h[k], id); }
      assert RowExplained(t[id], g, id);
    }
    forall k | 0 <= k < |g| ensures forall id: nat :: id >= |t| ==> !Used(g[k], id) {
      if k < |h| { assert g[k] == h[k]; }
    }
  }

  lemma SelectExplains(rows: Table, h: seq<Event>, op: Op)
    requires Explained(rows, h) && op.Select?
    ensures Explained(Step(rows, op).rows, h + [Event(op, Step(rows, op).outcome)])
  {
    var e := Event(op, Step(rows, op).outcome);
    var t, g := Step(rows, op).rows, h + [e];
    forall id | 0 <= id < |t| ensures RowExplained(t[id], g, id) { GrownRow(rows[id], t[id], h, e, id); }
    forall k | 0 <= k < |g| ensures forall id: nat :: id >= |t| ==> !Used(g[k], id) {
      if k < |h| { assert g[k] == h[k]; }
    }
  }

  lemma {:induction false} HistoryExplains(ops: seq<Op>)
    ensures Explained(Run(ops), History(ops))
  {
    if ops != [] {
      var n := |ops| - 1;
      HistoryExplains(ops[..n]);
      if ops[n].Persist? {
        PersistExplains(Run(ops[..n]), History(ops[..n]), ops[n]);
      } else {
        SelectExplains(Run(ops[..n]), History(ops[..n]), ops[n]);
      }
    }
  }

  /** After any run there is one row per (shopper, pincode, normalised line); its use count is the number of
      persists and selections answered with it, its quality the best submitted for it, its first merchant the
      one that created it, its details those of the last persist, its time that of the last use, and no optional
      field once given is lost. */
  lemma {:induction false} BookIsItsHistory(ops: seq<Op>, id: nat)
    requires id < |Run(ops)|
    ensures var r, h := Run(ops)[id], History(ops);
      && OneRowPerAddress(Run(ops))
      && r.useCount == Uses(h, id) >= 1
      && r.quality == BestQuality(h, id)
      && CreatedBy(r, FirstSave(h, id))
      && KeepsExtras(r.extras, h, id)
      && LastSave(h, id).Some? && r.details == LastSave(h, id).value.details
      && LastUse(h, id) == Some(r.lastUsedAt)
  {
    HistoryExplains(ops);
    assert RowExplained(Run(ops)[id], History(ops), id);
    FirstSaveUses(History(ops), id);
  }

  lemma {:induction false} FirstSaveUses(h: seq<Event>, id: nat)
    requires FirstSave(h, id).Some?
    ensures Uses(h, id) >= 1
  {
    if FirstSave(h[..|h| - 1], id).Some? { FirstSaveUses(h[..|h| - 1], id); }
  }

  predicate SameAddress(a: Op, b: Op)
    requires a.Persist? && b.Persist?
  {
    a.shopper == b.shopper && a.payload.pincode == b.payload.pincode && a.payload.line1Norm == b.payload.line1Norm
  }

  /** A persist is answered with the row of its address. */
  lemma {:induction false} AnsweredWithMatch(ops: seq<Op>, k: nat) returns (id: nat)
    requires k < |ops| && ops[k].Persist?
    ensures History(ops)[k].outcome.Saved? && History(ops)[k].outcome.id == id < |Run(ops)|
    ensures Matches(Run(ops)[id], ops[k].shopper, ops[k].payload.pincode, ops[k].payload.line1Norm)
  {
    AnsweredAt(ops, k);
    HistoryExplains(ops);
    var h := History(ops);
    id := h[k].outcome.id;
    assert RowExplained(Run(ops)[id], h, id) && Saves(h[k], id);
  }

  /** Two persists are answered with one row exactly when they are for the same shopper, pincode and line. */
  lemma {:induction false} SameRowIffSameAddress(ops: seq<Op>, a: nat, b: nat)
    requires a < |ops| && b < |ops| && ops[a].Persist? && ops[b].Persist?
    ensures History(ops)[a].outcome.Saved? && History(ops)[b].outcome.Saved?
    ensures History(ops)[a].outcome.id == History(ops)[b].outcome.id <==> SameAddress(ops[a], ops[b])
  {
    var i := AnsweredWithMatch(ops, a);
    var j := AnsweredWithMatch(ops, b);
    OneRow(ops, i, j);
  }

  lemma OneRow(ops: seq<Op>, i: nat, j: nat)
    requires i < |Run(ops)| && j < |Run(ops)|
    ensures var r, s := Run(ops)[i], Run(ops)[j]; Matches(s, r.shopper, r.pincode, r.line1Norm) ==> i == j
  {
    HistoryExplains(ops);
  }

  lemma {:induction false} AnsweredAt(ops: seq<Op>, k: nat)
    requires k < |ops| && ops[k].Persist?
    ensures History(ops)[k].op == ops[k]
    ensures History(ops)[k].outcome.Saved? && History(ops)[k].outcome.id < |Run(ops)|
  {
    var n := |ops| - 1;
    if k < n { AnsweredAt(ops[..n], k); }
  }

  /** One of the persists was for the address of `op`. */
  predicate SeenBefore(ops: seq<Op>, op: Op)
    requires op.Persist?
  {
    exists j :: 0 <= j < |ops| && ops[j].Persist? && SameAddress(ops[j], op)
  }

  lemma FoundIffSeenBefore(ops: seq<Op>, op: Op)
    requires op.Persist?
    ensures FindMatch(Run(ops), op.shopper, op.payload.pincode, op.payload.line1Norm).Some? <==> SeenBefore(ops, op)
  {
    var found := FindMatch(Run(ops), op.shopper, op.payload.pincode, op.payload.line1Norm);
    if found.Some? {
      var j := SavedOnce(ops, found.value);
      assert SameAddress(ops[j], op);
    }
    if SeenBefore(ops, op) {
      var j :| 0 <= j < |ops| && ops[j].Persist? && SameAddress(ops[j], op);
      var id := AnsweredWithMatch(ops, j);
    }
  }

  lemma HistoryGrows(before: seq<Op>, op: Op)
    ensures History(before + [op]) == History(before) + [Event(op, Step(Run(before), op).outcome)]
  {
    assert (before + [op])[..|before|] == before;
  }

  lemma PersistFinds(rows: Table, op: Op)
    requires op.Persist?
    ensures var outcome := Step(rows, op).outcome;
      && outcome.Saved?
      && (outcome.deduped <==> FindMatch(rows, op.shopper, op.payload.pincode, op.payload.line1Norm).Some?)
  {
  }

  /** A persist says it found its address exactly when an earlier persist of the shopper was for the same one. */
  lemma {:induction false} DedupedIffSeenBefore(ops: seq<Op>, k: nat)
    requires k < |ops| && ops[k].Persist?
    ensures History(ops)[k].outcome.Saved?
    ensures History(ops)[k].outcome.deduped <==> SeenBefore(ops[..k], ops[k])
    decreases |ops|
  {
    var n := |ops| - 1;
    var before := ops[..n];
    assert before + [ops[n]] == ops;
    HistoryGrows(before, ops[n]);
    if k < n {
      DedupedIffSeenBefore(before, k);
      assert before[..k] == ops[..k];
    } else {
      FoundIffSeenBefore(before, ops[n]);
      PersistFinds(Run(before), ops[n]);
    }
  }

  /** Every row was persisted. */
  lemma {:induction false} SavedOnce(ops: seq<Op>, id: nat) returns (j: nat)
    requires id < |Run(ops)|
    ensures j < |ops| && ops[j].Persist?
    ensures Matches(Run(ops)[id], ops[j].shopper, ops[j].payload.pincode, ops[j].payload.line1Norm)
  {
    HistoryExplains(ops);
    assert RowExplained(Run(ops)[id], History(ops), id);
    j := FirstSaveAt(History(ops), id);
    OpsOfHistory(ops, j);
  }

  lemma {:induction false} FirstSaveAt(h: seq<Event>, id: nat) returns (j: nat)
    requires FirstSave(h, id).Some?
    ensures j < |h| && Saves(h[j], id)
  {
    if FirstSave(h[..|h| - 1], id).Some? { j := FirstSaveAt(h[..|h| - 1], id); } else { j := |h| - 1; }
  }

  lemma {:induction false} OpsOfHistory(ops: seq<Op>, k: nat)
    requires k < |ops|
    ensures History(ops)[k].op == ops[k]
  {
    if k < |ops| - 1 { OpsOfHistory(ops[..|ops| - 1], k); }
  }

  /** A shopper can select an address exactly at the merchant where it was first saved, and only a saved one of their
      own. */
  lemma {:induction false} SelectedIff(ops: seq<Op>, shopper: string, merchant: string, id: nat, now: nat)
    ensures Step(Run(ops), Select(shopper, merchant, id, now)).outcome == Selected(id) <==>
      var first := FirstSave(History(ops), id);
      first.Some? && first.value.shopper == shopper && first.value.merchant == merchant
    ensures Step(Run(ops), Select(shopper, merchant, id, now)).outcome in {Selected(id), NotFound}
  {
    HistoryExplains(ops);
    if id < |Run(ops)| {
      assert RowExplained(Run(ops)[id], History(ops), id);
    } else {
      UnusedHasNothing(History(ops), |Run(ops)|, id);
    }
  }

  lemma RowGrows(rows: Table, op: Op, id: nat)
    requires id < |rows|
    ensures id < |Step(rows, op).rows|
    ensures var r, s := rows[id], Step(rows, op).rows[id];
      && s.shopper == r.shopper && s.pincode == r.pincode && s.line1Norm == r.line1Norm
      && s.firstMerchant == r.firstMerchant && s.line1 == r.line1
      && s.quality >= r.quality && s.useCount >= r.useCount
  {
  }

  /** A row's address and first merchant never change, and its quality and use count never fall. */
  lemma {:induction false} RowsOnlyGrow(ops: seq<Op>, more: seq<Op>, id: nat)
    requires id < |Run(ops)|
    ensures id < |Run(ops + more)|
    ensures var r, s := Run(ops)[id], Run(ops + more)[id];
      && Matches(s, r.shopper, r.pincode, r.line1Norm) && s.firstMerchant == r.firstMerchant && s.line1 == r.line1
      && s.quality >= r.quality && s.useCount >= r.useCount
  {
    if more == [] {
      assert ops + more == ops;
    } else {
      var n := |more| - 1;
      RowsOnlyGrow(ops, more[..n], id);
      assert (ops + more)[..|ops + more| - 1] == ops + more[..n];
      RowGrows(Run(ops + more[..n]), more[n], id);
    }
  }
}
