/** Concurrent logins against one account (`auth.routes.ts`, the `/login` handler).

    A login checks the status, then verifies the password, then records a failure or resets the counter.
    The three are separate steps, so several logins can pass the check before any of them records. */
module LoginThrottle {
  import opened Base
  import opened AuthAbuse

  /** The clock, the account's row, the logins that have arrived, and those that passed the check. */
  datatype State = State(now: nat, row: Option<Row>, arrived: set<nat>, passed: set<nat>)

  function Initial(now: nat): State { State(now, None, {}, {}) }

  datatype Step =
    | Tick(ms: nat)
    | Arrive(login: nat)
    | CheckStatus(login: nat, networkBlocked: bool) // a blocked login leaves with INVALID_LOGIN
    | WrongPassword(login: nat)                     // records a failure, of a known account or not
    | RightPassword(login: nat)                     // resets the counter
    | Leave(login: nat)                             // fixture accounts fail without being recorded

  /** At most `limit` logins are in flight. */
  predicate Enabled(limit: nat, s: State, step: Step) {
    match step
    case Tick(_) => true
    case Arrive(c) => c !in s.arrived && c !in s.passed && |s.arrived| + |s.passed| < limit
    case CheckStatus(c, _) => c in s.arrived
    case WrongPassword(c) => c in s.passed
    case RightPassword(c) => c in s.passed
    case Leave(c) => c in s.passed
  }

  function Apply(s: State, step: Step): State {
    match step
    case Tick(ms) => s.(now := s.now + ms)
    case Arrive(c) => s.(arrived := s.arrived + {c})
    case CheckStatus(c, networkBlocked) =>
      var left := s.(arrived := s.arrived - {c});
      if Locked(s.row, s.now) || networkBlocked then left else left.(passed := s.passed + {c})
    case WrongPassword(c) =>
      s.(passed := s.passed - {c}, row := Some(Lock(true, IncrementRaw(s.row, s.now), s.now).row))
    case RightPassword(c) => s.(passed := s.passed - {c}, row := None)
    case Leave(c) => s.(passed := s.passed - {c})
  }

  function Next(limit: nat, s: State, step: Step): State { if Enabled(limit, s, step) then Apply(s, step) else s }

  function Run(limit: nat, s: State, steps: seq<Step>): State {
    if steps == [] then s else var n := |steps| - 1; Next(limit, Run(limit, s, steps[..n]), steps[n])
  }

  /** What becomes of an unblocked login: the right or a wrong password of a known account, no account to check it
      against, or the fixture gate, which refuses without recording. */
  datatype Verdict = Right | Wrong | Unknown | Refused

  class LoginHandler {
    const abuse: AuthAbuseStates

    constructor (abuse: AuthAbuseStates)
      ensures this.abuse == abuse
    {
      this.abuse := abuse;
    }

    /** One login from start to end: status at `checkedAt`, outcome recorded at `recordedAt`. */
    method Login(account: string, network: string, checkedAt: nat, verdict: Verdict, recordedAt: nat)
      returns (ok: bool, notify: bool, sleptMs: nat)
      modifies abuse
      ensures var status := GetStatus(old(abuse.states), account, network, checkedAt);
        var recorded := RecordFailure(abuse.raw, old(abuse.states), account, network, recordedAt);
        && sleptMs == status.delayMs
        && ok == (!status.blocked && verdict == Right)
        && notify == (!status.blocked && verdict == Wrong && recorded.failure.shouldNotify)
        && abuse.states ==
             if status.blocked || verdict == Refused then old(abuse.states)
             else if verdict in {Wrong, Unknown} then recorded.store
             else ResetAccount(old(abuse.states), account)
    {
      var status := abuse.GetAuthAbuseStatus(account, network, checkedAt);
      ok, notify, sleptMs := false, false, status.delayMs;
      if status.blocked || verdict == Refused { return; }
      if verdict == Unknown {
        var _ := abuse.RecordAuthFailure(account, network, recordedAt);
        return;
      }
      if verdict == Wrong {
        var failure := abuse.RecordAuthFailure(account, network, recordedAt);
        notify := failure.shouldNotify;
        return;
      }
      abuse.ResetAuthAccountFailures(account);
      ok := true;
    }
  }

  // ---- safety

  /** Eight or more attempts mean a lock until the window is over. */
  ghost predicate LockHolds(row: Option<Row>, now: nat) {
    row.Some? ==>
      && row.value.windowStart == WindowStart(row.value.windowStart) <= now
      && (row.value.attempts >= LOCK_THRESHOLD ==> row.value.lockUntil.Some?)
      && (row.value.lockUntil.Some? ==> row.value.lockUntil.value >= row.value.windowStart + WINDOW_MS)
  }

  ghost predicate Inv(limit: nat, s: State) {
    && LockHolds(s.row, s.now)
    && s.arrived !! s.passed
    && |s.arrived| + |s.passed| <= limit
    && Attempts(s.row, s.now) + |s.passed| <= LOCK_THRESHOLD - 1 + limit
  }

  lemma TickKeepsInv(limit: nat, s: State, ms: nat)
    requires Inv(limit, s)
    ensures Inv(limit, Apply(s, Tick(ms)))
  {
    WindowsAreDisjoint(s.now, s.now + ms);
  }

  lemma OpenMeansFew(row: Option<Row>, now: nat)
    requires LockHolds(row, now) && !Locked(row, now)
    ensures Attempts(row, now) < LOCK_THRESHOLD
  {
    if row.Some? { WindowsAreDisjoint(row.value.windowStart, now); }
  }

  lemma FailureKeepsLock(row: Option<Row>, now: nat)
    requires LockHolds(row, now)
    ensures var r := Some(Lock(true, IncrementRaw(row, now), now).row);
      LockHolds(r, now) && Attempts(r, now) == Attempts(row, now) + 1
  {
    WindowsAreDisjoint(now, now);
    WindowsAreDisjoint(WindowStart(now), now);
    if row.Some? { WindowsAreDisjoint(row.value.windowStart, now); }
  }

  lemma StepKeepsInv(limit: nat, s: State, step: Step)
    requires Inv(limit, s)
    ensures Inv(limit, Next(limit, s, step))
  {
    if Enabled(limit, s, step) {
      match step {
        case Tick(ms) => TickKeepsInv(limit, s, ms);
        case CheckStatus(c, _) => if !Locked(s.row, s.now) { OpenMeansFew(s.row, s.now); }
        case WrongPassword(_) => FailureKeepsLock(s.row, s.now);
        case _ =>
      }
    }
  }

  lemma {:induction false} RunKeepsInv(limit: nat, s: State, steps: seq<Step>)
    requires Inv(limit, s)
    ensures Inv(limit, Run(limit, s, steps))
  {
    if steps != [] {
      RunKeepsInv(limit, s, steps[..|steps| - 1]);
      StepKeepsInv(limit, Run(limit, s, steps[..|steps| - 1]), steps[|steps| - 1]);
    }
  }

  /** In every interleaving of at most `limit` logins in flight, the attempts of the current window stay within
      7 + limit, and from the eighth attempt on the account is locked until the window is over. */
  lemma {:induction false} AttemptsAreBounded(limit: nat, start: nat, steps: seq<Step>)
    ensures var s := Run(limit, Initial(start), steps);
      && Attempts(s.row, s.now) <= 7 + limit
      && (Attempts(s.row, s.now) >= LOCK_THRESHOLD ==>
            Locked(s.row, s.now) && s.row.value.lockUntil.value >= WindowStart(s.now) + WINDOW_MS)
  {
    RunKeepsInv(limit, Initial(start), steps);
    var s := Run(limit, Initial(start), steps);
    if !Locked(s.row, s.now) { OpenMeansFew(s.row, s.now); }
  }

  // ---- the bound is reached

  lemma {:induction false} RunAppend(limit: nat, s: State, steps: seq<Step>, more: seq<Step>)
    ensures Run(limit, s, steps + more) == Run(limit, Run(limit, s, steps), more)
  {
    if more == [] {
      assert steps + more == steps;
    } else {
      var n := |more| - 1;
      RunAppend(limit, s, steps, more[..n]);
      assert (steps + more)[..|steps + more| - 1] == steps + more[..n];
    }
  }

  lemma RunOne(limit: nat, s: State, a: Step)
    ensures Run(limit, s, [a]) == Next(limit, s, a)
  {
    assert [a][..0] == [];
  }

  lemma RunThree(limit: nat, s: State, a: Step, b: Step, c: Step)
    ensures Run(limit, s, [a, b, c]) == Next(limit, Next(limit, Next(limit, s, a), b), c)
  {
    RunOne(limit, s, a);
    assert [a, b][..1] == [a];
    assert Run(limit, s, [a, b]) == Next(limit, Run(limit, s, [a]), b);
    assert [a, b, c][..2] == [a, b];
  }

  /** One failing login after another, while the account is open. */
  lemma {:induction false} FailInTurn(limit: nat, start: nat, n: nat) returns (steps: seq<Step>)
    requires limit >= 1 && n <= 7
    ensures var s := Run(limit, Initial(start), steps);
      s.now == start && s.arrived == s.passed == {} && Attempts(s.row, start) == n && LockHolds(s.row, start)
  {
    steps := [];
    if n > 0 {
      var before := FailInTurn(limit, start, n - 1);
      var s := Run(limit, Initial(start), before);
      var turn := [Arrive(0), CheckStatus(0, false), WrongPassword(0)];
      steps := before + turn;
      RunAppend(limit, Initial(start), before, turn);
      RunThree(limit, s, turn[0], turn[1], turn[2]);
      if Locked(s.row, s.now) { LockedMeansMany(limit, start, before); }
      FailureKeepsLock(s.row, start);
      assert {0} - {0} == {};
    }
  }

  /** The account's row is locked only from the eighth attempt on. */
  ghost predicate OnlyManyLock(row: Option<Row>) {
    row.Some? && row.value.lockUntil.Some? ==> row.value.attempts >= LOCK_THRESHOLD
  }

  lemma {:induction false} LocksComeFromMany(limit: nat, start: nat, steps: seq<Step>)
    ensures OnlyManyLock(Run(limit, Initial(start), steps).row)
  {
    if steps != [] { LocksComeFromMany(limit, start, steps[..|steps| - 1]); }
  }

  lemma LockedMeansMany(limit: nat, start: nat, steps: seq<Step>)
    requires var s := Run(limit, Initial(start), steps); Locked(s.row, s.now)
    ensures var s := Run(limit, Initial(start), steps); Attempts(s.row, s.now) >= LOCK_THRESHOLD
  {
    LocksComeFromMany(limit, start, steps);
  }

  /** With seven failures on record, `n` logins arrive and pass the check. */
  lemma {:induction false} PassTogether(limit: nat, start: nat, n: nat) returns (steps: seq<Step>)
    requires 1 <= limit && n <= limit
    ensures var s := Run(limit, Initial(start), steps);
      s.now == start && s.arrived == {} && s.passed == Upto(n) && Attempts(s.row, start) == 7 && LockHolds(s.row, start)
  {
    if n == 0 {
      steps := FailInTurn(limit, start, 7);
    } else {
      var before := PassTogether(limit, start, n - 1);
      var s := Run(limit, Initial(start), before);
      var turn := [Arrive(n - 1), CheckStatus(n - 1, false), Tick(0)];
      steps := before + turn;
      RunAppend(limit, Initial(start), before, turn);
      RunThree(limit, s, turn[0], turn[1], turn[2]);
      if Locked(s.row, s.now) { LockedMeansMany(limit, start, before); }
      assert Upto(n) == Upto(n - 1) + {n - 1};
      assert {n - 1} - {n - 1} == {};
    }
  }

  /** Of `limit` logins past the check, all but `left` have failed. */
  lemma {:induction false} FailTogether(limit: nat, start: nat, left: nat) returns (steps: seq<Step>)
    requires 1 <= limit && left <= limit
    ensures var s := Run(limit, Initial(start), steps);
      s.now == start && s.passed == Upto(left) && Attempts(s.row, start) == 7 + limit - left && LockHolds(s.row, start)
    decreases limit - left
  {
    if left == limit {
      steps := PassTogether(limit, start, limit);
    } else {
      var before := FailTogether(limit, start, left + 1);
      var s := Run(limit, Initial(start), before);
      steps := before + [WrongPassword(left)];
      RunAppend(limit, Initial(start), before, [WrongPassword(left)]);
      RunOne(limit, s, WrongPassword(left));
      FailureKeepsLock(s.row, start);
      assert Upto(left + 1) - {left} == Upto(left);
    }
  }

  /** For every number of logins in flight some interleaving reaches the bound. */
  lemma BoundIsReached(limit: nat, start: nat) returns (steps: seq<Step>)
    requires limit >= 1
    ensures var s := Run(limit, Initial(start), steps); Attempts(s.row, s.now) == 7 + limit
  {
    steps := FailTogether(limit, start, 0);
  }

  // ---- one login is a run of the machine

  /** The step that ends a login which passed the check. */
  function End(verdict: Verdict): Step {
    match verdict
    case Right => RightPassword(0)
    case Wrong => WrongPassword(0)
    case Unknown => WrongPassword(0)
    case Refused => Leave(0)
  }

  /** A login with nobody else in flight is the machine's run of its steps: it leaves the account's row that the handler
      leaves. */
  lemma LoginIsARun(store: Store, account: string, network: string, checkedAt: nat, ms: nat, verdict: Verdict)
    ensures var s := State(checkedAt, Get(store, Account(account)), {}, {});
      var status := GetStatus(store, account, network, checkedAt);
      var after :=
        if status.blocked || verdict == Refused then store
        else if verdict in {Wrong, Unknown} then RecordFailure(true, store, account, network, checkedAt + ms).store
        else ResetAccount(store, account);
      Run(1, s, [Arrive(0), CheckStatus(0, status.networkBlocked), Tick(ms)] + [End(verdict)]) ==
      State(checkedAt + ms, Get(after, Account(account)), {}, {})
  {
    var s := State(checkedAt, Get(store, Account(account)), {}, {});
    var a, b, c := Arrive(0), CheckStatus(0, GetStatus(store, account, network, checkedAt).networkBlocked), Tick(ms);
    RunThree(1, s, a, b, c);
    var t := Run(1, s, [a, b, c]);
    RunAppend(1, s, [a, b, c], [End(verdict)]);
    RunOne(1, t, End(verdict));
    assert {0} - {0} == {} && {} + {0} == {0};
  }
}
