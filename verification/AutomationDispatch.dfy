/** The dispatch of one automation event (`autopilot.service.ts`): reads, claims, POST responses, callbacks and
    operator retries as interleaved steps. What a dispatch decides between its read and its claim depends on
    settings and consents outside the model, so it is a free choice among the outcomes the code has. */
module AutomationDispatch {
  import opened Base

  datatype Status = Queued | Processing | Dispatched | Processed | Failed | Cancelled

  datatype Event = Event(status: Status, attempts: nat, nextAttemptAt: Option<nat>)

  const MINUTE_MS: nat := 60_000
  const CALLBACK_MAX_ATTEMPTS: nat := 3

  // ---- the writes to the event row

  function MarkProcessed(e: Event): Event { e.(status := Processed) }

  /** `read` is the attempts read some time before the write. */
  function MarkFailed(e: Event, read: nat, now: nat, retryInMinutes: nat, maxAttempts: nat): Event {
    e.(status := Failed,
       nextAttemptAt := if read < maxAttempts then Some(now + retryInMinutes * MINUTE_MS) else None)
  }

  function Cancel(e: Event): Event { e.(status := Cancelled) }

  function Defer(e: Event, now: nat): Event { e.(status := Queued, nextAttemptAt := Some(now + 60 * MINUTE_MS)) }

  function ConfigFailed(e: Event, now: nat): Event { e.(status := Failed, nextAttemptAt := Some(now + 15 * MINUTE_MS)) }

  function Unsent(e: Event): Event { e.(status := Queued, nextAttemptAt := None) }

  function Claim(e: Event): Event { e.(status := Processing, attempts := e.attempts + 1) }

  /** The finish of a successful POST, given the status read just before. */
  function FinishOk(e: Event, latest: Status): Event { if latest == Processing then e.(status := Dispatched) else e }

  function Requeue(e: Event): Event { e.(status := Queued, nextAttemptAt := None) }

  /** The checks at the top of `dispatchAutomationEvent`. */
  predicate Dispatchable(e: Event, now: nat) {
    e.status in {Queued, Failed} && (e.nextAttemptAt.Some? ==> e.nextAttemptAt.value <= now)
  }

  class AutomationEventRow {
    var status: Status
    var attempts: nat
    var nextAttemptAt: Option<nat>

    ghost function Abstract(): Event
      reads this
    {
      Event(status, attempts, nextAttemptAt)
    }

    constructor ()
      ensures Abstract() == Event(Queued, 0, None)
    {
      status, attempts, nextAttemptAt := Queued, 0, None;
    }

    method MarkAutomationEventProcessed()
      modifies this
      ensures Abstract() == MarkProcessed(old(Abstract()))
    {
      status := Processed;
    }

    method FindAttempts() returns (read: nat)
      ensures read == attempts
    {
      read := attempts;
    }

    /** The update of `markAutomationEventFailed`, any time after its read. */
    method MarkAutomationEventFailed(read: nat, now: nat, retryInMinutes: nat, maxAttempts: nat)
      modifies this
      ensures Abstract() == MarkFailed(old(Abstract()), read, now, retryInMinutes, maxAttempts)
    {
      status := Failed;
      nextAttemptAt := if read < maxAttempts then Some(now + retryInMinutes * MINUTE_MS) else None;
    }

    method ClaimForDispatch()
      modifies this
      ensures Abstract() == Claim(old(Abstract()))
    {
      status := Processing;
      attempts := attempts + 1;
    }

    method FinishDispatch(latest: Status)
      modifies this
      ensures Abstract() == FinishOk(old(Abstract()), latest)
    {
      if latest == Processing {
        status := Dispatched;
      }
    }

    method RequeueForRetry()
      modifies this
      ensures Abstract() == Requeue(old(Abstract()))
    {
      status := Queued;
      nextAttemptAt := None;
    }

    method DeferForQuietHours(now: nat)
      modifies this
      ensures Abstract() == Defer(old(Abstract()), now)
    {
      status := Queued;
      nextAttemptAt := Some(now + 60 * MINUTE_MS);
    }
  }

  // ---- the machine

  /** `requested` dispatches have not read the event yet; `planning` ones hold the row they read; `claimed` ones
      are about to POST; `awaiting` ones have POSTed; `finishing` ones hold the status they read after an ok
      response; `calling` callbacks hold the status they read and what they report. */
  datatype State = State(
    now: nat,
    event: Event,
    posts: nat,
    requested: set<nat>,
    planning: map<nat, Event>,
    claimed: set<nat>,
    awaiting: set<nat>,
    finishing: map<nat, Status>,
    calling: map<nat, Callback>)

  datatype Callback = Callback(read: Status, processed: bool)

  function Initial(now: nat): State { State(now, Event(Queued, 0, None), 0, {}, map[], {}, {}, map[], map[]) }

  datatype Step =
    | Tick(ms: nat)
    | Request(w: nat)                        // some caller dispatches the event
    | Retry(w: nat)                          // the operator requeues it and dispatches
    | ReadForDispatch(w: nat)
    | PlanCancels(w: nat)
    | PlanDefers(w: nat)
    | LimitReached(w: nat, read: nat)        // the failing steps use attempts read at some time before
    | PlanMisconfigured(w: nat)
    | PlanUnsent(w: nat)
    | ClaimEvent(w: nat)
    | Post(w: nat)
    | ReadAfterOk(w: nat)
    | WriteAfterOk(w: nat)
    | FailDispatch(w: nat, read: nat)        // a failed response, a timeout, or an error after the claim
    | ReadForCallback(c: nat, processed: bool)
    | WriteCallback(c: nat, read: nat)

  /** `limit` is the workflow's retry limit; at most `width` dispatches are between their read and their claim. */
  datatype Config = Config(limit: nat, width: nat)

  predicate Busy(s: State, w: nat) {
    w in s.requested || w in s.planning || w in s.claimed || w in s.awaiting || w in s.finishing
  }

  predicate Enabled(k: Config, s: State, step: Step) {
    match step
    case Tick(_) => true
    case Request(w) => !Busy(s, w)
    case Retry(w) => !Busy(s, w)
    case ReadForDispatch(w) => w in s.requested && w !in s.planning && |s.planning| < k.width
    case PlanCancels(w) => w in s.planning
    case PlanDefers(w) => w in s.planning
    case LimitReached(w, read) => w in s.planning && s.planning[w].attempts >= k.limit && read <= s.event.attempts
    case PlanMisconfigured(w) => w in s.planning && s.planning[w].attempts < k.limit
    case PlanUnsent(w) => w in s.planning && s.planning[w].attempts < k.limit
    case ClaimEvent(w) => w in s.planning && s.planning[w].attempts < k.limit
    case Post(w) => w in s.claimed
    case ReadAfterOk(w) => w in s.awaiting && w !in s.finishing
    case WriteAfterOk(w) => w in s.finishing
    case FailDispatch(w, read) => (w in s.claimed || w in s.awaiting || w in s.finishing) && read <= s.event.attempts
    case ReadForCallback(c, _) => c !in s.calling
    case WriteCallback(c, read) => c in s.calling && read <= s.event.attempts
  }

  function Planned(s: State, w: nat, event: Event): State { s.(event := event, planning := s.planning - {w}) }

  function Apply(k: Config, s: State, step: Step): State
    requires Enabled(k, s, step)
  {
    match step
    case Tick(ms) => s.(now := s.now + ms)
    case Request(w) => s.(requested := s.requested + {w})
    case Retry(w) => s.(event := Requeue(s.event), requested := s.requested + {w})
    case ReadForDispatch(w) =>
      var read := s.(requested := s.requested - {w});
      if Dispatchable(s.event, s.now) then read.(planning := s.planning[w := s.event]) else read
    case PlanCancels(w) => Planned(s, w, Cancel(s.event))
    case PlanDefers(w) => Planned(s, w, Defer(s.event, s.now))
    case LimitReached(w, read) => Planned(s, w, MarkFailed(s.event, read, s.now, 0, k.limit))
    case PlanMisconfigured(w) => Planned(s, w, ConfigFailed(s.event, s.now))
    case PlanUnsent(w) => Planned(s, w, Unsent(s.event))
    case ClaimEvent(w) => Planned(s, w, Claim(s.event)).(claimed := s.claimed + {w})
    case Post(w) => s.(posts := s.posts + 1, claimed := s.claimed - {w}, awaiting := s.awaiting + {w})
    case ReadAfterOk(w) => s.(awaiting := s.awaiting - {w}, finishing := s.finishing[w := s.event.status])
    case WriteAfterOk(w) => s.(event := FinishOk(s.event, s.finishing[w]), finishing := s.finishing - {w})
    case FailDispatch(w, read) =>
      s.(event := MarkFailed(s.event, read, s.now, 15, k.limit),
         claimed := s.claimed - {w}, awaiting := s.awaiting - {w}, finishing := s.finishing - {w})
    case ReadForCallback(c, processed) => s.(calling := s.calling[c := Callback(s.event.status, processed)])
    case WriteCallback(c, read) =>
      var call := s.calling[c];
      s.(calling := s.calling - {c},
         event := if !call.processed then MarkFailed(s.event, read, s.now, 15, CALLBACK_MAX_ATTEMPTS)
                  else if call.read == Processed then s.event
                  else MarkProcessed(s.event))
  }

  function Next(k: Config, s: State, step: Step): State { if Enabled(k, s, step) then Apply(k, s, step) else s }

  function Run(k: Config, s: State, steps: seq<Step>): State {
    if steps == [] then s else var n := |steps| - 1; Next(k, Run(k, s, steps[..n]), steps[n])
  }

  // ---- POSTs and attempts

  /** The planning dispatches that will pass the retry limit. */
  function Eligible(limit: nat, planning: map<nat, Event>): set<nat> {
    set w | w in planning && planning[w].attempts < limit
  }

  /** One attempt more than the limit for each further dispatch that overlaps; none at all without a first attempt. */
  function Bound(k: Config): nat { if k.limit == 0 || k.width == 0 then 0 else k.limit + k.width - 1 }

  ghost predicate Counted(k: Config, s: State) {
    && s.posts + |s.claimed| <= s.event.attempts
    && s.event.attempts + |Eligible(k.limit, s.planning)| <= Bound(k)
    && |s.planning| <= k.width
    && s.claimed !! s.planning.Keys
  }

  lemma EligibleIsPart(limit: nat, planning: map<nat, Event>)
    ensures Eligible(limit, planning) <= planning.Keys
    ensures |Eligible(limit, planning)| <= |planning|
  {
    SubsetSize(Eligible(limit, planning), planning.Keys);
  }

  lemma EligibleGrows(limit: nat, planning: map<nat, Event>, w: nat, e: Event)
    requires w !in planning
    ensures Eligible(limit, planning[w := e]) == Eligible(limit, planning) + if e.attempts < limit then {w} else {}
    ensures planning[w := e].Keys == planning.Keys + {w} && |planning[w := e]| == |planning| + 1
  {
    assert planning[w := e].Keys == planning.Keys + {w};
  }

  lemma EligibleShrinks(limit: nat, planning: map<nat, Event>, w: nat)
    ensures Eligible(limit, planning - {w}) == Eligible(limit, planning) - {w}
    ensures |planning - {w}| <= |planning|
  {
    assert (planning - {w}).Keys == planning.Keys - {w};
  }

  lemma PlannedKeepsCount(k: Config, s: State, w: nat, e: Event)
    requires Counted(k, s) && w in s.planning && e.attempts == s.event.attempts
    ensures Counted(k, Planned(s, w, e))
  {
    EligibleShrinks(k.limit, s.planning, w);
  }

  lemma ClaimKeepsCount(k: Config, s: State, w: nat)
    requires Counted(k, s) && Enabled(k, s, ClaimEvent(w))
    ensures Counted(k, Apply(k, s, ClaimEvent(w)))
  {
    EligibleShrinks(k.limit, s.planning, w);
    assert w in Eligible(k.limit, s.planning);
  }

  /** A dispatch that reads adds at most itself to those that will pass, and only below the limit. */
  lemma ReaderKeepsSum(k: Config, attempts: nat, planning: map<nat, Event>, w: nat, e: Event)
    requires e.attempts == attempts && w !in planning && |planning| < k.width
    requires attempts + |Eligible(k.limit, planning)| <= Bound(k)
    ensures attempts + |Eligible(k.limit, planning[w := e])| <= Bound(k)
  {
    EligibleGrows(k.limit, planning, w, e);
    EligibleIsPart(k.limit, planning);
  }

  lemma ReadKeepsCount(k: Config, s: State, w: nat)
    requires Counted(k, s) && Disjoint(s) && Enabled(k, s, ReadForDispatch(w))
    ensures Counted(k, Apply(k, s, ReadForDispatch(w)))
  {
    if Dispatchable(s.event, s.now) {
      ReaderKeepsSum(k, s.event.attempts, s.planning, w, s.event);
      EligibleGrows(k.limit, s.planning, w, s.event);
    }
  }

  lemma WorkKeepsCount(k: Config, s: State, step: Step)
    requires Counted(k, s) && Enabled(k, s, step) && (step.Post? || step.FailDispatch?)
    ensures Counted(k, Apply(k, s, step))
  {
    var w := step.w;
    assert |s.claimed - {w}| <= |s.claimed|;
    if step.Post? { assert |s.claimed - {w}| == |s.claimed| - 1; }
  }

  predicate Plans(step: Step) {
    step.PlanCancels? || step.PlanDefers? || step.LimitReached? || step.PlanMisconfigured? || step.PlanUnsent?
  }

  lemma PlanKeepsCount(k: Config, s: State, step: Step)
    requires Counted(k, s) && Enabled(k, s, step) && Plans(step)
    ensures Counted(k, Apply(k, s, step))
  {
    PlannedKeepsCount(k, s, step.w, Apply(k, s, step).event);
  }

  lemma StepKeepsCount(k: Config, s: State, step: Step)
    requires Counted(k, s) && Disjoint(s)
    ensures Counted(k, Next(k, s, step))
  {
    if Enabled(k, s, step) {
      if Plans(step) {
        PlanKeepsCount(k, s, step);
      } else if step.ReadForDispatch? {
        ReadKeepsCount(k, s, step.w);
      } else if step.ClaimEvent? {
        ClaimKeepsCount(k, s, step.w);
      } else if step.Post? || step.FailDispatch? {
        WorkKeepsCount(k, s, step);
      }
    }
  }

  /** No worker is in two places. */
  ghost predicate Disjoint(s: State) {
    && s.requested !! s.planning.Keys
    && s.requested !! s.claimed
    && s.planning.Keys !! s.claimed
  }

  lemma StepKeepsDisjoint(k: Config, s: State, step: Step)
    requires Disjoint(s)
    ensures Disjoint(Next(k, s, step))
  {
  }

  lemma {:induction false} RunKeepsCount(k: Config, s: State, steps: seq<Step>)
    requires Counted(k, s) && Disjoint(s)
    ensures Counted(k, Run(k, s, steps)) && Disjoint(Run(k, s, steps))
  {
    if steps != [] {
      var n := |steps| - 1;
      RunKeepsCount(k, s, steps[..n]);
      StepKeepsCount(k, Run(k, s, steps[..n]), steps[n]);
      StepKeepsDisjoint(k, Run(k, s, steps[..n]), steps[n]);
    }
  }

  /** However often it is retried, an event is POSTed at most `attempts` times, and `attempts` stays within the
      retry limit plus the dispatches that can overlap between read and claim, less one. */
  lemma PostsAreBounded(k: Config, start: nat, steps: seq<Step>)
    ensures var s := Run(k, Initial(start), steps); s.posts <= s.event.attempts <= Bound(k)
  {
    EligibleIsPart(k.limit, map[]);
    RunKeepsCount(k, Initial(start), steps);
  }

  /** When dispatches of the event do not overlap, the retry limit is the bound. */
  lemma SerialDispatchKeepsLimit(limit: nat, start: nat, steps: seq<Step>)
    ensures var s := Run(Config(limit, 1), Initial(start), steps); s.posts <= s.event.attempts <= limit
  {
    PostsAreBounded(Config(limit, 1), start, steps);
  }

  // ---- the bound is reached

  lemma Extend(k: Config, start: nat, steps: seq<Step>, a: Step, b: Step) returns (more: seq<Step>)
    ensures Run(k, Initial(start), more) == Next(k, Next(k, Run(k, Initial(start), steps), a), b)
  {
    more := steps + [a] + [b];
    assert more[..|more| - 1] == steps + [a];
    assert (steps + [a])[..|steps|] == steps;
  }

  /** Nothing is under way, and the event was POSTed once per attempt and is due. */
  ghost predicate Idle(s: State) {
    && s.requested == {} && s.planning == map[] && s.claimed == {} && s.awaiting == {} && s.finishing == map[]
    && s.posts == s.event.attempts && Dispatchable(s.event, s.now)
  }

  lemma IdleToPlanning(k: Config, s: State) returns (t: State)
    requires k.width >= 1 && Idle(s)
    ensures t == Next(k, Next(k, s, Request(0)), ReadForDispatch(0))
    ensures t.requested == {} && t.planning == map[0 := s.event] && t.event == s.event && t.now == s.now &&
      t.posts == s.posts
    ensures t.claimed == {} && t.awaiting == {} && t.finishing == map[]
  {
    t := Next(k, s, Request(0));
    assert t.requested == {0};
    t := Next(k, t, ReadForDispatch(0));
    assert {0} - {0} == {};
  }

  lemma PlanningToAwaiting(k: Config, s: State) returns (t: State)
    requires s.planning == map[0 := s.event] && s.event.attempts < k.limit && s.claimed == {} && s.awaiting == {}
    ensures t == Next(k, Next(k, s, ClaimEvent(0)), Post(0))
    ensures t.requested == s.requested && t.planning == map[] && t.event == Claim(s.event) && t.now == s.now
    ensures t.claimed == {} && t.awaiting == {0} && t.finishing == s.finishing && t.posts == s.posts + 1
  {
    t := Next(k, s, ClaimEvent(0));
    assert t.claimed == {0} && t.planning == map[];
    t := Next(k, t, Post(0));
  }

  lemma AwaitingToIdle(k: Config, s: State) returns (t: State)
    requires s.requested == {} && s.planning == map[] && s.claimed == {} && s.awaiting == {0} && s.finishing == map[]
    requires s.posts == s.event.attempts
    ensures t == Next(k, Next(k, s, FailDispatch(0, s.event.attempts)), Tick(15 * MINUTE_MS))
    ensures Idle(t) && t.event.attempts == s.event.attempts
  {
    t := Next(k, s, FailDispatch(0, s.event.attempts));
    assert t.awaiting == {} && t.finishing == map[] && t.claimed == {};
    t := Next(k, t, Tick(15 * MINUTE_MS));
  }

  /** Dispatches that read, claim, POST and fail in turn, each when the last one's delay is over. */
  lemma {:induction false} FailInTurn(k: Config, start: nat, n: nat) returns (steps: seq<Step>, t: State)
    requires k.width >= 1 && n <= k.limit
    ensures Run(k, Initial(start), steps) == t && Idle(t) && t.event.attempts == n
  {
    if n == 0 {
      steps, t := [], Initial(start);
    } else {
      steps, t := FailInTurn(k, start, n - 1);
      t := IdleToPlanning(k, t);
      steps := Extend(k, start, steps, Request(0), ReadForDispatch(0));
      t := PlanningToAwaiting(k, t);
      steps := Extend(k, start, steps, ClaimEvent(0), Post(0));
      steps := Extend(k, start, steps, FailDispatch(0, t.event.attempts), Tick(15 * MINUTE_MS));
      t := AwaitingToIdle(k, t);
    }
  }

  function Readers(n: nat, e: Event): map<nat, Event> { map w | w in Upto(n) :: e }

  /** One more dispatch reads the event before any of the others claims it. */
  lemma OneMoreReader(k: Config, s: State, n: nat) returns (t: State)
    requires n < k.width && s.requested == {} && s.claimed == {} && s.awaiting == {} && s.finishing == map[]
    requires Dispatchable(s.event, s.now) && s.planning == Readers(n, s.event)
    ensures t == Next(k, Next(k, s, Request(n)), ReadForDispatch(n))
    ensures t == s.(planning := Readers(n + 1, s.event))
  {
    assert |s.planning| == |s.planning.Keys| == n by { assert s.planning.Keys == Upto(n); }
    t := Next(k, s, Request(n));
    assert t.requested == {n};
    t := Next(k, t, ReadForDispatch(n));
    assert {n} - {n} == {};
    assert Readers(n + 1, s.event) == Readers(n, s.event)[n := s.event];
  }

  lemma {:induction false} PlanTogether(k: Config, start: nat, before: seq<Step>, s: State, n: nat)
    returns (steps: seq<Step>)
    requires n <= k.width && Run(k, Initial(start), before) == s && Idle(s)
    ensures Run(k, Initial(start), steps) == s.(planning := Readers(n, s.event))
  {
    if n == 0 {
      steps := before;
    } else {
      steps := PlanTogether(k, start, before, s, n - 1);
      var t := OneMoreReader(k, s.(planning := Readers(n - 1, s.event)), n - 1);
      steps := Extend(k, start, steps, Request(n - 1), ReadForDispatch(n - 1));
    }
  }

  lemma OneMorePost(k: Config, s: State, w: nat, read: Event) returns (t: State)
    requires s.claimed == {} && read.attempts < k.limit && s.planning == Readers(w + 1, read)
    ensures t == Next(k, Next(k, s, ClaimEvent(w)), Post(w))
    ensures t.claimed == {} && t.planning == Readers(w, read)
    ensures t.posts == s.posts + 1 && t.event.attempts == s.event.attempts + 1
  {
    t := Next(k, s, ClaimEvent(w));
    assert t.claimed == {w};
    assert t.planning == Readers(w, read);
    t := Next(k, t, Post(w));
  }

  /** Readers of a free attempt claim and POST one by one, whatever the others did. */
  lemma {:induction false} PostTogether(k: Config, start: nat, before: seq<Step>, s: State, left: nat, read: Event)
    returns (steps: seq<Step>, t: State)
    requires Run(k, Initial(start), before) == s && read.attempts < k.limit
    requires s.claimed == {} && s.planning == Readers(left, read) && s.posts == s.event.attempts
    ensures Run(k, Initial(start), steps) == t && t.posts == t.event.attempts == s.event.attempts + left
    decreases left
  {
    if left == 0 {
      steps, t := before, s;
    } else {
      t := OneMorePost(k, s, left - 1, read);
      steps := Extend(k, start, before, ClaimEvent(left - 1), Post(left - 1));
      steps, t := PostTogether(k, start, steps, t, left - 1, read);
    }
  }

  /** For every limit and every overlap the bound is reached. */
  lemma BoundIsReached(k: Config, start: nat) returns (steps: seq<Step>)
    ensures var s := Run(k, Initial(start), steps); s.posts == s.event.attempts == Bound(k)
  {
    if Bound(k) == 0 {
      steps := [];
    } else {
      var failed, s := FailInTurn(k, start, k.limit - 1);
      var read := PlanTogether(k, start, failed, s, k.width);
      var t;
      steps, t := PostTogether(k, start, read, s.(planning := Readers(k.width, s.event)), k.width, s.event);
    }
  }

  /** The retry limit holds of all runs exactly when dispatches of the event never overlap between read and claim, or
      none is allowed at all. */
  lemma RetryLimitHoldsIff(k: Config, start: nat)
    ensures (forall steps :: Run(k, Initial(start), steps).event.attempts <= k.limit) <==> k.width <= 1 || k.limit == 0
  {
    if k.width <= 1 || k.limit == 0 {
      forall steps ensures Run(k, Initial(start), steps).event.attempts <= k.limit {
        PostsAreBounded(k, start, steps);
      }
    } else {
      var steps := BoundIsReached(k, start);
      assert Run(k, Initial(start), steps).event.attempts == k.limit + k.width - 1;
    }
  }

  // ---- leaving PROCESSED

  /** The steps that are meant to take an event out of PROCESSED. */
  predicate Reopens(s: State, step: Step) { step.FailDispatch? || Restarts(s, step) }

  /** The operator retries the event, or a callback reports that it failed. */
  predicate Restarts(s: State, step: Step) {
    step.Retry? || (step.WriteCallback? && step.c in s.calling && !s.calling[step.c].processed)
  }

  /** A worker is about to write on the strength of a status read before the event was processed. */
  predicate StaleReader(s: State) {
    s.planning != map[] || exists w :: w in s.finishing && s.finishing[w] == Processing
  }

  /** No step of the run reopens the event. */
  predicate Quiet(k: Config, s: State, steps: seq<Step>) {
    steps == [] || (var n := |steps| - 1; Quiet(k, s, steps[..n]) && !Reopens(Run(k, s, steps[..n]), steps[n]))
  }

  lemma {:induction false} ProcessedStays(k: Config, s: State, steps: seq<Step>)
    requires s.event.status == Processed && !StaleReader(s) && Quiet(k, s, steps)
    ensures Run(k, s, steps).event == s.event && !StaleReader(Run(k, s, steps))
  {
    if steps != [] { ProcessedStays(k, s, steps[..|steps| - 1]); }
  }

  lemma {:induction false} StaleReaderLosesProcessed(k: Config, s: State) returns (step: Step)
    requires s.event.status == Processed && StaleReader(s)
    ensures !Reopens(s, step) && Next(k, s, step).event.status != Processed
  {
    if w :| w in s.finishing && s.finishing[w] == Processing {
      step := WriteAfterOk(w);
    } else {
      var w :| w in s.planning;
      step := PlanCancels(w);
    }
  }

  lemma OneStep(k: Config, s: State, step: Step)
    ensures Run(k, s, [step]) == Next(k, s, step)
    ensures !Reopens(s, step) ==> Quiet(k, s, [step])
  {
    assert [step][..0] == [];
    assert Run(k, s, []) == s;
    assert Quiet(k, s, []);
  }

  /** A processed event stays so through any run without retries, FAILED callbacks and failed POSTs, late ok
      responses included, exactly when nobody still acts on a status read before it was processed. */
  lemma ProcessedIsFinalIffNoStaleReader(k: Config, s: State)
    requires s.event.status == Processed
    ensures !StaleReader(s) <==> forall steps :: Quiet(k, s, steps) ==> Run(k, s, steps).event.status == Processed
  {
    if StaleReader(s) {
      var step := StaleReaderLosesProcessed(k, s);
      OneStep(k, s, step);
    } else {
      forall steps | Quiet(k, s, steps) ensures Run(k, s, steps).event.status == Processed {
        ProcessedStays(k, s, steps);
      }
    }
  }

  // ---- what a dispatch achieves

  lemma RunTwo(k: Config, s: State, a: Step, b: Step)
    ensures Run(k, s, [a, b]) == Next(k, Next(k, s, a), b)
  {
    OneStep(k, s, a);
    assert [a, b][..1] == [a];
  }

  /** A claimed event whose POST is answered ok ends DISPATCHED, and nothing else of it changes. */
  lemma OkLeavesDispatched(k: Config, s: State, w: nat)
    requires s.event.status == Processing && w in s.awaiting && w !in s.finishing
    ensures var t := Run(k, s, [ReadAfterOk(w), WriteAfterOk(w)]);
      && t.event.status == Dispatched
      && t.event.attempts == s.event.attempts && t.event.nextAttemptAt == s.event.nextAttemptAt && t.posts == s.posts
      && t.awaiting == s.awaiting - {w} && t.finishing == s.finishing
      && t.requested == s.requested && t.planning == s.planning && t.claimed == s.claimed && t.calling == s.calling
  {
    RunTwo(k, s, ReadAfterOk(w), WriteAfterOk(w));
    assert s.finishing[w := s.event.status] - {w} == s.finishing;
  }

  /** Nobody has the event restarted during the run. */
  predicate Undisturbed(k: Config, s: State, steps: seq<Step>) {
    steps == []
    || (var n := |steps| - 1; Undisturbed(k, s, steps[..n]) && !Restarts(Run(k, s, steps[..n]), steps[n]))
  }

  /** Nobody is between reading the event and the last write about it. Dispatches may have been asked for. */
  predicate Resting(s: State) { s.planning == map[] && s.claimed == {} && s.awaiting == {} && s.finishing == map[] }

  /** An event that was answered ok is not POSTed again, however many dispatches and callbacks come, unless the operator
      retries it or a callback reports a failure. */
  lemma {:induction false} AnsweredIsNotPostedAgain(k: Config, s: State, steps: seq<Step>)
    requires Resting(s) && s.event.status in {Dispatched, Processed} && Undisturbed(k, s, steps)
    ensures var t := Run(k, s, steps);
      && t.posts == s.posts && t.event.attempts == s.event.attempts
      && Resting(t) && t.event.status in {Dispatched, Processed}
  {
    if steps != [] { AnsweredIsNotPostedAgain(k, s, steps[..|steps| - 1]); }
  }

  /** One dispatch of a due event with an attempt left, from the request to the ok answer: it POSTs once. */
  lemma WholeDispatch(k: Config, s: State)
    requires k.width >= 1 && Idle(s) && s.event.attempts < k.limit
    ensures var t := Run(k, s, [Request(0), ReadForDispatch(0)] + [ClaimEvent(0), Post(0)] +
                               [ReadAfterOk(0), WriteAfterOk(0)]);
      && t.posts == s.posts + 1 && t.event.attempts == s.event.attempts + 1
      && t.event.status == Dispatched && Resting(t)
  {
    var planning := IdleToPlanning(k, s);
    var awaiting := PlanningToAwaiting(k, planning);
    RunTwo(k, s, Request(0), ReadForDispatch(0));
    RunTwo(k, planning, ClaimEvent(0), Post(0));
    RunTwoMore(k, s, [Request(0), ReadForDispatch(0)], ClaimEvent(0), Post(0));
    RunTwoMore(k, s, [Request(0), ReadForDispatch(0)] + [ClaimEvent(0), Post(0)], ReadAfterOk(0), WriteAfterOk(0));
    OkLeavesDispatched(k, awaiting, 0);
  }

  lemma RunTwoMore(k: Config, s: State, steps: seq<Step>, a: Step, b: Step)
    ensures Run(k, s, steps + [a, b]) == Run(k, Run(k, s, steps), [a, b])
  {
    var whole := steps + [a, b];
    RunTwo(k, Run(k, s, steps), a, b);
    assert whole[..|whole| - 1] == steps + [a];
    assert (steps + [a])[..|steps|] == steps;
  }

  /** When a dispatch asked for at time `at` will find the event due again, after each way a dispatch can end
      without an answer: never once cancelled, at once when nothing was sent, an hour later in quiet hours, a
      quarter of an hour later when the workflow is misconfigured or the POST failed; a failure with its attempts
      used up sets no time. */
  lemma EndingDecidesWhenDue(k: Config, s: State, step: Step, at: nat)
    requires Enabled(k, s, step) && (Plans(step) || step.FailDispatch?)
    ensures var e := Next(k, s, step).event;
      && e.attempts == s.event.attempts
      && (Dispatchable(e, at) <==>
            match step
            case PlanCancels(_) => false
            case PlanDefers(_) => s.now + 3_600_000 <= at
            case PlanMisconfigured(_) => s.now + 900_000 <= at
            case LimitReached(_, read) => read < k.limit ==> s.now <= at
            case FailDispatch(_, read) => read < k.limit ==> s.now + 900_000 <= at
            case _ => true)
    ensures var t := Next(k, s, step);
      && (Plans(step) ==> step.w !in t.planning)
      && (step.FailDispatch? ==> step.w !in t.claimed + t.awaiting + t.finishing.Keys)
  {
  }

  /** A callback that reports success leaves the event PROCESSED, and writes nothing if it had read it so; one that
      reports a failure makes it due again a quarter of an hour later, or with its three attempts used up at no set
      time. */
  lemma CallbackDecides(k: Config, s: State, c: nat, read: nat, at: nat)
    requires Enabled(k, s, WriteCallback(c, read))
    ensures Next(k, s, WriteCallback(c, read)).calling == s.calling - {c}
    ensures var e := Next(k, s, WriteCallback(c, read)).event;
      && e.attempts == s.event.attempts
      && (s.calling[c] == Callback(Processed, true) ==> e == s.event)
      && (s.calling[c].processed && s.calling[c].read != Processed ==>
            e.status == Processed && e.nextAttemptAt == s.event.nextAttemptAt)
      && (!s.calling[c].processed ==>
            e.status == Failed && (Dispatchable(e, at) <==> (read < 3 ==> s.now + 900_000 <= at)))
  {
  }

  /** A callback acts on the status it read. */
  lemma CallbackReads(k: Config, s: State, c: nat, processed: bool)
    requires c !in s.calling
    ensures var t := Next(k, s, ReadForCallback(c, processed));
      t == s.(calling := s.calling[c := Callback(s.event.status, processed)])
  {
  }

  /** The operator's retry makes any event due at once, and the dispatch it asks for reads it so. */
  lemma RetryIsReadAsDue(k: Config, s: State, w: nat)
    requires !Busy(s, w) && |s.planning| < k.width
    ensures var t := Run(k, s, [Retry(w), ReadForDispatch(w)]);
      && t.event.status == Queued && t.event.attempts == s.event.attempts && t.event.nextAttemptAt == None
      && w in t.planning && t.planning[w] == t.event && t.posts == s.posts
  {
    RunTwo(k, s, Retry(w), ReadForDispatch(w));
  }

  /** A dispatch asked for reads the event exactly when it is queued or failed and its time has come; otherwise it ends
      without a write. */
  lemma OnlyDueEventsAreRead(k: Config, s: State, w: nat)
    requires Enabled(k, s, ReadForDispatch(w))
    ensures var t := Next(k, s, ReadForDispatch(w));
      && t.event == s.event && t.posts == s.posts && t.requested == s.requested - {w}
      && (w in t.planning <==>
            && (s.event.status == Queued || s.event.status == Failed)
            && (s.event.nextAttemptAt == None || s.event.nextAttemptAt.value <= s.now))
      && (w !in t.planning ==> t == s.(requested := t.requested))
  {
  }

  /** A dispatch that read an event with its attempts used up is refused for that and never claims it; one that read it
      with an attempt left can claim it and is not refused. */
  lemma LimitDecides(k: Config, s: State, w: nat)
    requires w in s.planning
    ensures Enabled(k, s, ClaimEvent(w)) <==> s.planning[w].attempts < k.limit
    ensures (exists read: nat :: Enabled(k, s, LimitReached(w, read))) <==> s.planning[w].attempts >= k.limit
    ensures Enabled(k, s, PlanMisconfigured(w)) || Enabled(k, s, PlanUnsent(w)) ==> s.planning[w].attempts < k.limit
    ensures forall read: nat :: Enabled(k, s, LimitReached(w, read)) ==> read <= s.event.attempts
  {
    if s.planning[w].attempts >= k.limit { assert Enabled(k, s, LimitReached(w, s.event.attempts)); }
  }
}
