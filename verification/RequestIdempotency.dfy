/** The at-most-once request protocol of `requireIdempotency` (`middleware/idempotency.ts`), step by step.

    A request finds, inserts, perhaps finds again, is handled, and writes its response some time after
    it was sent; the steps of any number of requests interleave freely.

    The write is a step of its own because the source does not await it. Nor does it ask for it in any other way, and a
    Prisma query is sent only when its promise is asked: as the source stands, its runs are those without `Write`. The
    results about stored responses describe the middleware once the update is awaited. */
module RequestIdempotency {
  import opened Base
  import opened JsonValues

  datatype RowKey = RowKey(merchantId: string, route: string, key: string)

  datatype Reply = Reply(status: nat, body: Json)

  datatype Phase =
    | Start
    | Missed                                // the first lookup had nothing to replay
    | Collided                              // the insert hit the unique key
    | Handling                              // next() ran: the request is in its handler
    | Answered(reply: Reply, written: bool) // res.json ran; the write of the body may still be pending
    | Replayed(reply: Reply)
    | Rejected(error: HttpError)

  datatype Call = Call(key: RowKey, phase: Phase)

  /** The key table and the requests in flight. A row's response is None until one is written. */
  datatype State = State(rows: map<RowKey, Option<Json>>, calls: map<nat, Call>)

  const Initial := State(map[], map[])

  /** JavaScript truthiness, which decides whether a stored response counts as one. */
  predicate Truthy(body: Json) {
    match body
    case Null => false
    case Bool(b) => b
    case Num(n) => n != 0.0
    case Str(s) => s != ""
    case Big(i) => i != 0
    case _ => true
  }

  function Replayable(rows: map<RowKey, Option<Json>>, k: RowKey): Option<Json> {
    if k in rows && rows[k].Some? && Truthy(rows[k].value) then rows[k] else None
  }

  datatype Step =
    | Arrive(call: nat, merchantId: Option<string>, route: string, header: Option<string>)
    | Find(call: nat)
    | Insert(call: nat)
    | InsertError(call: nat)            // a database error other than the unique conflict
    | FindAgain(call: nat)
    | Answer(call: nat, reply: Reply)   // the handler, or the error middleware after it, calls res.json
    | Write(call: nat)                  // the stored response catches up

  predicate Enabled(s: State, step: Step) {
    match step
    case Arrive(c, _, _, _) => c !in s.calls
    case Find(c) => c in s.calls && s.calls[c].phase == Start
    case Insert(c) => c in s.calls && s.calls[c].phase == Missed
    case InsertError(c) => c in s.calls && s.calls[c].phase == Missed
    case FindAgain(c) => c in s.calls && s.calls[c].phase == Collided
    case Answer(c, _) => c in s.calls && s.calls[c].phase == Handling
    case Write(c) => c in s.calls && s.calls[c].phase.Answered? && !s.calls[c].phase.written
  }

  function Move(s: State, c: nat, phase: Phase): State
    requires c in s.calls
  {
    s.(calls := s.calls[c := s.calls[c].(phase := phase)])
  }

  function Apply(s: State, step: Step): State
    requires Enabled(s, step)
  {
    match step
    case Arrive(c, merchantId, route, header) =>
      var merchant := if merchantId.Some? then merchantId.value else "";
      var key := RowKey(merchant, route, if header.Some? then header.value else "");
      var phase :=
        if key.merchantId == "" then Rejected(HttpError(401, "UNAUTHORIZED"))
        else if key.key == "" then Rejected(HttpError(400, "IDEMPOTENCY_KEY_REQUIRED"))
        else Start;
      s.(calls := s.calls[c := Call(key, phase)])
    case Find(c) =>
      var stored := Replayable(s.rows, s.calls[c].key);
      Move(s, c, if stored.Some? then Replayed(Reply(200, stored.value)) else Missed)
    case Insert(c) =>
      var k := s.calls[c].key;
      if k in s.rows then Move(s, c, Collided) else Move(s.(rows := s.rows[k := None]), c, Handling)
    case InsertError(c) => Move(s, c, Rejected(HttpError(500, "INTERNAL")))
    case FindAgain(c) =>
      var stored := Replayable(s.rows, s.calls[c].key);
      Move(s, c, if stored.Some? then Replayed(Reply(200, stored.value))
                 else Rejected(HttpError(409, "IDEMPOTENCY_KEY_IN_PROGRESS")))
    case Answer(c, reply) => Move(s, c, Answered(reply, false))
    case Write(c) =>
      var a := s.calls[c];
      Move(s.(rows := s.rows[a.key := Some(a.phase.reply.body)]), c, a.phase.(written := true))
  }

  /** A step that is not enabled does nothing, so every list of steps is a run. */
  function Next(s: State, step: Step): State {
    if Enabled(s, step) then Apply(s, step) else s
  }

  function Run(s: State, steps: seq<Step>): State {
    if steps == [] then s else var n := |steps| - 1; Next(Run(s, steps[..n]), steps[n])
  }

  /** The steps as the middleware performs them on the table and on its own requests. */
  class Middleware {
    var rows: map<RowKey, Option<Json>>
    var calls: map<nat, Call>

    ghost function Abstract(): State
      reads this
    {
      State(rows, calls)
    }

    constructor ()
      ensures Abstract() == Initial
    {
      rows, calls := map[], map[];
    }

    method SetPhase(c: nat, phase: Phase)
      requires c in calls
      modifies this`calls
      ensures calls == old(calls)[c := old(calls)[c].(phase := phase)]
    {
      calls := calls[c := calls[c].(phase := phase)];
    }

    method Receive(c: nat, merchantId: Option<string>, route: string, header: Option<string>)
      requires Enabled(Abstract(), Arrive(c, merchantId, route, header))
      modifies this
      ensures Abstract() == Apply(old(Abstract()), Arrive(c, merchantId, route, header))
    {
      var merchant := if merchantId.Some? then merchantId.value else "";
      var key := if header.Some? then header.value else "";
      calls := calls[c := Call(RowKey(merchant, route, key), Start)];
      if merchant == "" {
        SetPhase(c, Rejected(HttpError(401, "UNAUTHORIZED")));
      } else if key == "" {
        SetPhase(c, Rejected(HttpError(400, "IDEMPOTENCY_KEY_REQUIRED")));
      }
    }

    method LookUp(c: nat)
      requires Enabled(Abstract(), Find(c))
      modifies this
      ensures Abstract() == Apply(old(Abstract()), Find(c))
    {
      var existing := Replayable(rows, calls[c].key);
      if existing.Some? {
        SetPhase(c, Replayed(Reply(200, existing.value)));
      } else {
        SetPhase(c, Missed);
      }
    }

    method Create(c: nat)
      requires Enabled(Abstract(), Insert(c))
      modifies this
      ensures Abstract() == Apply(old(Abstract()), Insert(c))
    {
      var k := calls[c].key;
      if k in rows {
        SetPhase(c, Collided);
      } else {
        rows := rows[k := None];
        SetPhase(c, Handling);
      }
    }

    method LookUpAgain(c: nat)
      requires Enabled(Abstract(), FindAgain(c))
      modifies this
      ensures Abstract() == Apply(old(Abstract()), FindAgain(c))
    {
      var replay := Replayable(rows, calls[c].key);
      if replay.Some? {
        SetPhase(c, Replayed(Reply(200, replay.value)));
      } else {
        SetPhase(c, Rejected(HttpError(409, "IDEMPOTENCY_KEY_IN_PROGRESS")));
      }
    }

    method RespondJson(c: nat, reply: Reply)
      requires Enabled(Abstract(), Answer(c, reply))
      modifies this
      ensures Abstract() == Apply(old(Abstract()), Answer(c, reply))
    {
      SetPhase(c, Answered(reply, false));
    }

    method StoreResponse(c: nat)
      requires Enabled(Abstract(), Write(c))
      modifies this
      ensures Abstract() == Apply(old(Abstract()), Write(c))
    {
      var phase := calls[c].phase;
      rows := rows[calls[c].key := Some(phase.reply.body)];
      SetPhase(c, phase.(written := true));
    }
  }

  // ---- the invariant

  /** The request got past `next()`. */
  predicate Entered(phase: Phase) { phase.Handling? || phase.Answered? }

  predicate Owns(s: State, c: nat, k: RowKey) {
    c in s.calls && s.calls[c].key == k && Entered(s.calls[c].phase)
  }

  ghost predicate OneOwner(s: State) {
    forall c, d, k :: Owns(s, c, k) && Owns(s, d, k) ==> c == d
  }

  ghost predicate RowsAreOwned(s: State) {
    && (forall c, k :: Owns(s, c, k) ==> k in s.rows)
    && (forall k :: k in s.rows ==> exists c :: Owns(s, c, k) && Backs(s, c, s.rows[k]))
  }

  /** What the row holds is what its owner sent, once written. */
  predicate Backs(s: State, c: nat, stored: Option<Json>)
    requires c in s.calls
  {
    var phase := s.calls[c].phase;
    if phase.Answered? && phase.written then stored == Some(phase.reply.body) else stored == None
  }

  /** Every replay repeats the body that the owner of its key sent. */
  ghost predicate ReplaysAreBacked(s: State) {
    forall r :: r in s.calls && s.calls[r].phase.Replayed? ==>
      s.calls[r].phase.reply.status == 200 && exists c :: Sent(s, c, s.calls[r].key, s.calls[r].phase.reply.body)
  }

  predicate Sent(s: State, c: nat, k: RowKey, body: Json) {
    Owns(s, c, k) && s.calls[c].phase.Answered? && s.calls[c].phase.written && s.calls[c].phase.reply.body == body
  }

  ghost predicate Inv(s: State) { OneOwner(s) && RowsAreOwned(s) && ReplaysAreBacked(s) }

  /** Owners and what they sent survive every step. */
  lemma StepKeepsSent(s: State, step: Step)
    requires Enabled(s, step)
    ensures forall c, k :: Owns(s, c, k) ==> Owns(Apply(s, step), c, k)
    ensures forall c, k, b :: Sent(s, c, k, b) ==> Sent(Apply(s, step), c, k, b)
  {
  }

  /** Only a successful insert makes an owner, and it puts the row there first. */
  lemma OwnersComeFromInserts(s: State, step: Step, c: nat, k: RowKey)
    requires Enabled(s, step) && Owns(Apply(s, step), c, k)
    ensures Owns(s, c, k) || (step == Insert(c) && k !in s.rows && s.calls[c].key == k)
  {
  }

  lemma StepKeepsOneOwner(s: State, step: Step)
    requires Enabled(s, step) && Inv(s)
    ensures OneOwner(Apply(s, step))
  {
    var t := Apply(s, step);
    forall c, d, k | Owns(t, c, k) && Owns(t, d, k) ensures c == d {
      OwnersComeFromInserts(s, step, c, k);
      OwnersComeFromInserts(s, step, d, k);
    }
  }

  lemma StepKeepsRows(s: State, step: Step)
    requires Enabled(s, step) && Inv(s)
    ensures RowsAreOwned(Apply(s, step))
  {
    var t := Apply(s, step);
    forall c, k | Owns(t, c, k) ensures k in t.rows {
      OwnersComeFromInserts(s, step, c, k);
    }
    forall k | k in t.rows ensures exists c :: Owns(t, c, k) && Backs(t, c, t.rows[k]) {
      if k in s.rows {
        var c :| Owns(s, c, k) && Backs(s, c, s.rows[k]);
        assert Owns(t, c, k);
        if step.Write? && s.calls[step.call].key == k {
          assert Owns(s, step.call, k);
        }
        assert Backs(t, c, t.rows[k]);
      } else {
        assert Owns(t, step.call, k) && Backs(t, step.call, t.rows[k]);
      }
    }
  }

  lemma StepKeepsReplays(s: State, step: Step)
    requires Enabled(s, step) && Inv(s)
    ensures ReplaysAreBacked(Apply(s, step))
  {
    var t := Apply(s, step);
    StepKeepsSent(s, step);
    forall r | r in t.calls && t.calls[r].phase.Replayed?
      ensures t.calls[r].phase.reply.status == 200
      ensures exists c :: Sent(t, c, t.calls[r].key, t.calls[r].phase.reply.body)
    {
      var k, body := t.calls[r].key, t.calls[r].phase.reply.body;
      if r in s.calls && s.calls[r].phase.Replayed? {
        assert s.calls[r] == t.calls[r];
        var c :| Sent(s, c, k, body);
        assert Sent(t, c, k, body);
      } else {
        assert k in s.rows && s.rows[k] == Some(body);
        var c :| Owns(s, c, k) && Backs(s, c, s.rows[k]);
        assert Sent(s, c, k, body);
      }
    }
  }

  lemma {:induction false} RunKeepsInv(s: State, steps: seq<Step>)
    requires Inv(s)
    ensures Inv(Run(s, steps))
  {
    if steps != [] {
      var n := |steps| - 1;
      RunKeepsInv(s, steps[..n]);
      var before := Run(s, steps[..n]);
      if Enabled(before, steps[n]) {
        StepKeepsOneOwner(before, steps[n]);
        StepKeepsRows(before, steps[n]);
        StepKeepsReplays(before, steps[n]);
      }
    }
  }

  // ---- what callers may rely on

  /** In every interleaving at most one request per (merchant, route, key) reaches its handler. */
  lemma AtMostOneHandled(steps: seq<Step>, c: nat, d: nat, k: RowKey)
    requires Owns(Run(Initial, steps), c, k) && Owns(Run(Initial, steps), d, k)
    ensures c == d
  {
    RunKeepsInv(Initial, steps);
  }

  /** Every replayed body is the body sent by the one request on that key that was handled; the replay always
      answers 200, so it repeats the whole reply exactly when that request was answered with 200. */
  lemma ReplayRepeatsHandledBody(steps: seq<Step>, r: nat) returns (c: nat)
    requires var s := Run(Initial, steps); r in s.calls && s.calls[r].phase.Replayed?
    ensures var s := Run(Initial, steps);
      && Owns(s, c, s.calls[r].key)
      && s.calls[c].phase.Answered?
      && s.calls[r].phase.reply.body == s.calls[c].phase.reply.body
      && (s.calls[r].phase.reply == s.calls[c].phase.reply <==> s.calls[c].phase.reply.status == 200)
  {
    RunKeepsInv(Initial, steps);
    var s := Run(Initial, steps);
    c :| Sent(s, c, s.calls[r].key, s.calls[r].phase.reply.body);
  }

  // ---- one request

  /** The falsy values of JavaScript, which count as no response. */
  lemma TruthyIff(body: Json)
    ensures Truthy(body) <==> body !in {Null, Bool(false), Num(0.0), Str(""), Big(0)}
  {
  }

  /** A lookup replays exactly a stored response that is not falsy, with 200; else the first one goes on to insert,
      and the second one, after a collision, refuses the request as in progress. */
  lemma LookUpsReplayIff(s: State, c: nat, again: bool)
    requires Enabled(s, if again then FindAgain(c) else Find(c))
    ensures var phase := Next(s, if again then FindAgain(c) else Find(c)).calls[c].phase; var k := s.calls[c].key;
      if k in s.rows && s.rows[k].Some? && s.rows[k].value !in {Null, Bool(false), Num(0.0), Str(""), Big(0)}
      then phase == Replayed(Reply(200, s.rows[k].value))
      else phase == if again then Rejected(HttpError(409, "IDEMPOTENCY_KEY_IN_PROGRESS")) else Missed
  {
    if s.calls[c].key in s.rows && s.rows[s.calls[c].key].Some? { TruthyIff(s.rows[s.calls[c].key].value); }
  }

  function TextOf(field: Option<string>): string { if field == None then "" else field.value }

  /** The request that the call stands for: under its merchant, its route and its key, and turned away at once without a
      merchant or without a key. */
  predicate StandsFor(call: Call, step: Step) {
    && step.Arrive? && call.key == RowKey(TextOf(step.merchantId), step.route, TextOf(step.header))
    && (call.key.merchantId == "" ==> call.phase == Rejected(HttpError(401, "UNAUTHORIZED")))
    && (call.key.merchantId != "" && call.key.key == "" ==>
          call.phase == Rejected(HttpError(400, "IDEMPOTENCY_KEY_REQUIRED")))
    && (call.key.merchantId != "" && call.key.key != "" ==>
          call.phase !in {Rejected(HttpError(401, "UNAUTHORIZED")),
                          Rejected(HttpError(400, "IDEMPOTENCY_KEY_REQUIRED"))})
  }

  ghost predicate HasArrived(s: State, steps: seq<Step>, c: nat)
    requires c in s.calls
  {
    exists i :: 0 <= i < |steps| && steps[i].Arrive? && steps[i].call == c && StandsFor(s.calls[c], steps[i])
  }

  lemma StepKeepsRequest(s: State, step: Step, c: nat, arrival: Step)
    requires c in s.calls && StandsFor(s.calls[c], arrival)
    ensures c in Next(s, step).calls && StandsFor(Next(s, step).calls[c], arrival)
  {
  }

  lemma ArrivalStands(s: State, step: Step, c: nat)
    requires c !in s.calls && c in Next(s, step).calls
    ensures step.Arrive? && step.call == c && StandsFor(Next(s, step).calls[c], step)
  {
  }

  /** In every interleaving each call stands, for good, for the request that arrived. */
  lemma {:induction false} CallsStandForWhatArrived(steps: seq<Step>, c: nat)
    requires c in Run(Initial, steps).calls
    ensures HasArrived(Run(Initial, steps), steps, c)
    decreases |steps|
  {
    var n := |steps| - 1;
    var s := Run(Initial, steps[..n]);
    if c in s.calls {
      CallsStandForWhatArrived(steps[..n], c);
      var i :| 0 <= i < n && steps[..n][i].Arrive? && steps[..n][i].call == c && StandsFor(s.calls[c], steps[..n][i]);
      StepKeepsRequest(s, steps[n], c, steps[i]);
    } else {
      ArrivalStands(s, steps[n], c);
    }
  }

  /** What a handled request is answered with is what its handler said. */
  lemma {:induction false} RepliesAreTheHandlers(steps: seq<Step>, c: nat)
    requires c in Run(Initial, steps).calls && Run(Initial, steps).calls[c].phase.Answered?
    ensures Answer(c, Run(Initial, steps).calls[c].phase.reply) in steps
    decreases |steps|
  {
    var n := |steps| - 1;
    var s := Run(Initial, steps[..n]);
    if c in s.calls && s.calls[c].phase.Answered? {
      RepliesAreTheHandlers(steps[..n], c);
    } else {
      assert steps[n].Answer? && steps[n].call == c;
    }
  }

  /** A first request on a key reaches its handler, and only its own row is added. */
  lemma FreshKeyIsHandled(s: State, c: nat, merchantId: string, route: string, key: string)
    requires c !in s.calls && merchantId != "" && key != "" && RowKey(merchantId, route, key) !in s.rows
    ensures var t := Next(Next(Next(s, Arrive(c, Some(merchantId), route, Some(key))), Find(c)), Insert(c));
      && t.rows == s.rows[RowKey(merchantId, route, key) := None]
      && t.calls == s.calls[c := Call(RowKey(merchantId, route, key), Handling)]
  {
    var a := Next(s, Arrive(c, Some(merchantId), route, Some(key)));
    assert Replayable(a.rows, a.calls[c].key) == None;
    var b := Next(a, Find(c));
    assert b.calls == s.calls[c := Call(RowKey(merchantId, route, key), Missed)];
  }

  // ---- the middleware as it stands: no response is ever written

  predicate NoWrites(steps: seq<Step>) { forall i :: 0 <= i < |steps| ==> !steps[i].Write? }

  predicate Proper(k: RowKey) { k.merchantId != "" && k.key != "" }

  /** No row holds a response, so nothing can be replayed; and every row has a merchant and a key. */
  ghost predicate Blank(s: State) {
    && (forall k :: k in s.rows ==> s.rows[k] == None && Proper(k))
    && (forall c :: c in s.calls ==>
         !s.calls[c].phase.Replayed? && (s.calls[c].phase.Rejected? || Proper(s.calls[c].key)))
  }

  lemma StepKeepsBlank(s: State, step: Step)
    requires Blank(s) && !step.Write?
    ensures Blank(Next(s, step))
  {
    assert forall k :: Replayable(s.rows, k) == None;
  }

  lemma {:induction false} RunKeepsBlank(s: State, steps: seq<Step>)
    requires Blank(s) && NoWrites(steps)
    ensures Blank(Run(s, steps))
    decreases |steps|
  {
    if steps != [] {
      RunKeepsBlank(s, steps[..|steps| - 1]);
      StepKeepsBlank(Run(s, steps[..|steps| - 1]), steps[|steps| - 1]);
    }
  }

  /** Without a write no row ever holds a response, and no request is ever answered by a replay. */
  lemma {:induction false} NothingIsReplayed(steps: seq<Step>)
    requires NoWrites(steps)
    ensures var s := Run(Initial, steps);
      && (forall k :: k in s.rows ==> s.rows[k] == None)
      && (forall c :: c in s.calls ==> !s.calls[c].phase.Replayed?)
  {
    RunKeepsBlank(Initial, steps);
  }

  const InProgress := HttpError(409, "IDEMPOTENCY_KEY_IN_PROGRESS")

  /** How far a request is on a key that was inserted before it came. Anything else is not on its way. */
  function Turned(phase: Phase): Option<nat> {
    match phase
    case Start => Some(0)
    case Missed => Some(1)
    case Collided => Some(2)
    case Rejected(e) => if e == InProgress then Some(3) else None
    case _ => None
  }

  /** A request on its way to 409, on a key that is taken and has no response. */
  ghost predicate OnItsWay(s: State, r: nat) {
    Blank(s) && r in s.calls && s.calls[r].key in s.rows && Turned(s.calls[r].phase).Some?
  }

  /** The step brings the request on, or leaves it where it is. */
  ghost predicate Brings(s: State, step: Step, t: State, r: nat)
    requires OnItsWay(s, r)
  {
    && OnItsWay(t, r) && t.calls[r].key == s.calls[r].key
    && var was := Turned(s.calls[r].phase).value;
    var now := Turned(t.calls[r].phase).value;
    && now >= was
    && (step == Find(r) ==> now >= 1)
    && (step == Insert(r) && was >= 1 ==> now >= 2)
    && (step == FindAgain(r) && was >= 2 ==> now == 3)
  }

  lemma StepTurns(s: State, step: Step, r: nat)
    requires OnItsWay(s, r) && !step.Write? && step != InsertError(r)
    ensures Brings(s, step, Next(s, step), r)
  {
    StepKeepsBlank(s, step);
    assert forall k :: Replayable(s.rows, k) == None;
  }

  /** How a request on a taken key stands: on its way to 409, there, or lost to a database error at its insert. */
  predicate TurnedAway(phase: Phase, steps: seq<Step>, r: nat) {
    Turned(phase).Some? || (phase == Rejected(HttpError(500, "INTERNAL")) && InsertError(r) in steps)
  }

  lemma StepTurnsAway(s: State, step: Step, r: nat, before: seq<Step>)
    requires Blank(s) && !step.Write? && r in s.calls && s.calls[r].key in s.rows
    requires TurnedAway(s.calls[r].phase, before, r)
    ensures TurnedAway(Next(s, step).calls[r].phase, before + [step], r)
  {
    if Turned(s.calls[r].phase).Some? && step != InsertError(r) {
      StepTurns(s, step, r);
    }
  }

  /** Every request that comes after its key was inserted is turned away, whether the first request on the key is still
      in its handler or was answered long ago: it never reaches the handler and is never answered by a replay. */
  lemma {:induction false} LaterRequestsAreTurnedAway(s: State, more: seq<Step>, r: nat)
    requires Blank(s) && NoWrites(more) && r !in s.calls
    requires r in Run(s, more).calls && Run(s, more).calls[r].key in s.rows
    ensures TurnedAway(Run(s, more).calls[r].phase, more, r)
    decreases |more|
  {
    if more != [] {
      var n := |more| - 1;
      var t := Run(s, more[..n]);
      RunKeepsBlank(s, more[..n]);
      RowsStay(s, more[..n]);
      if r in t.calls {
        KeysStay(t, more[n], r);
        LaterRequestsAreTurnedAway(s, more[..n], r);
        StepTurnsAway(t, more[n], r, more[..n]);
        assert more[..n] + [more[n]] == more;
      }
    }
  }

  lemma {:induction false} RowsStay(s: State, more: seq<Step>)
    ensures forall k :: k in s.rows ==> k in Run(s, more).rows
    decreases |more|
  {
    if more != [] { RowsStay(s, more[..|more| - 1]); }
  }

  /** The steps spare the request from a database error at its insert, and write no response. */
  predicate Plain(steps: seq<Step>, r: nat) { NoWrites(steps) && InsertError(r) !in steps }

  lemma {:induction false} RunTurns(s: State, steps: seq<Step>, r: nat)
    requires OnItsWay(s, r) && Plain(steps, r)
    ensures var t := Run(s, steps);
      && OnItsWay(t, r) && t.calls[r].key == s.calls[r].key
      && Turned(t.calls[r].phase).value >= Turned(s.calls[r].phase).value
    decreases |steps|
  {
    if steps != [] {
      var n := |steps| - 1;
      RunTurns(s, steps[..n], r);
      StepTurns(Run(s, steps[..n]), steps[n], r);
    }
  }

  lemma RunTurnsAndSteps(s: State, before: seq<Step>, step: Step, r: nat)
    requires OnItsWay(s, r) && Plain(before, r) && !step.Write? && step != InsertError(r)
    ensures Brings(s, step, Run(s, before + [step]), r)
  {
    RunTurns(s, before, r);
    StepTurns(Run(s, before), step, r);
    assert (before + [step])[..|before|] == before;
  }

  /** And it ends in 409 once it has looked, tried its insert and looked again, with anything in between. */
  lemma LaterRequestsEndIn409(s: State, r: nat, a: seq<Step>, b: seq<Step>, c: seq<Step>)
    requires OnItsWay(s, r) && Plain(a, r) && Plain(b, r) && Plain(c, r)
    ensures var t := Run(Run(Run(s, a + [Find(r)]), b + [Insert(r)]), c + [FindAgain(r)]);
      r in t.calls && t.calls[r].phase == Rejected(InProgress)
  {
    var x := Run(s, a + [Find(r)]);
    var y := Run(x, b + [Insert(r)]);
    RunTurnsAndSteps(s, a, Find(r), r);
    RunTurnsAndSteps(x, b, Insert(r), r);
    RunTurnsAndSteps(y, c, FindAgain(r), r);
  }

  // ---- the middleware once the update is awaited

  predicate Settled(s: State, k: RowKey, body: Json) { k in s.rows && s.rows[k] == Some(body) }

  /** A written response is never replaced. */
  lemma {:induction false} SettledForever(s: State, more: seq<Step>, k: RowKey, body: Json)
    requires Inv(s) && Settled(s, k, body)
    ensures Settled(Run(s, more), k, body)
  {
    if more != [] {
      var n := |more| - 1;
      SettledForever(s, more[..n], k, body);
      RunKeepsInv(s, more[..n]);
      var t, step := Run(s, more[..n]), more[n];
      if step.Write? && Enabled(t, step) && t.calls[step.call].key == k {
        var c :| Owns(t, c, k) && Backs(t, c, t.rows[k]);
        assert Owns(t, step.call, k);
      }
    }
  }

  /** How a request on a settled key can stand: waiting, replayed if the body is truthy, failed if it is not. */
  predicate AnswersSettled(phase: Phase, body: Json) {
    match phase
    case Start => true
    case Replayed(reply) => Truthy(body) && reply == Reply(200, body)
    case Missed => !Truthy(body)
    case Collided => !Truthy(body)
    case Rejected(e) => e.status in {400, 401} || !Truthy(body)
    case _ => false
  }

  /** Once a response is written, every later request on the key is answered from it when it is truthy;
      a falsy one (`null`, `false`, `0`, `""`) is never replayed and makes every later request fail. */
  lemma {:induction false} WrittenResponseDecidesRetries(s: State, more: seq<Step>, r: nat, k: RowKey, body: Json)
    requires Inv(s) && Settled(s, k, body) && r !in s.calls
    requires r in Run(s, more).calls && Run(s, more).calls[r].key == k
    ensures AnswersSettled(Run(s, more).calls[r].phase, body)
  {
    if more != [] {
      var n := |more| - 1;
      var t, step := Run(s, more[..n]), more[n];
      SettledForever(s, more[..n], k, body);
      if r in t.calls {
        KeysStay(t, step, r);
        WrittenResponseDecidesRetries(s, more[..n], r, k, body);
      }
    }
  }

  lemma KeysStay(s: State, step: Step, c: nat)
    requires c in s.calls
    ensures c in Next(s, step).calls && Next(s, step).calls[c].key == s.calls[c].key
  {
  }
}
