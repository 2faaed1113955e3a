/** The windowed login-failure counters of `auth-abuse.service.ts`, per account and per network. */
module AuthAbuse {
  import opened Base

  const ROUTE_CLASS := "login"
  const WINDOW_MS: nat := 900_000
  const LOCK_MS: nat := 900_000
  const NETWORK_LIMIT: nat := 20
  const LOCK_THRESHOLD: nat := 8
  const DELAY_START: nat := 3
  const DELAY_BASE_MS: nat := 1000
  const DELAY_CAP_MS: nat := 30_000

  /** A scope key: the source stores a hash of it, taken as collision free. */
  datatype Scope = Account(id: string) | Network(id: string)

  datatype Row = Row(routeClass: string, windowStart: nat, attempts: nat, lockUntil: Option<nat>)

  type Store = map<Scope, Row>

  function WindowStart(now: nat): (w: nat)
    ensures w <= now < w + WINDOW_MS
  {
    now / WINDOW_MS * WINDOW_MS
  }

  lemma WindowsAreDisjoint(a: nat, b: nat)
    ensures a <= b ==> WindowStart(a) <= WindowStart(b)
    ensures WindowStart(a) < WindowStart(b) ==> WindowStart(a) + 900_000 <= WindowStart(b)
    ensures WindowStart(a) <= b < WindowStart(a) + 900_000 ==> WindowStart(b) == WindowStart(a)
  {
    var x, y := a / WINDOW_MS, b / WINDOW_MS;
    if x < y { assert (x + 1) * WINDOW_MS <= y * WINDOW_MS; }
    if y < x { assert (y + 1) * WINDOW_MS <= x * WINDOW_MS; }
  }

  function Get(store: Store, scope: Scope): Option<Row> { if scope in store then Some(store[scope]) else None }

  function ActiveState(row: Option<Row>, now: nat): Option<Row> {
    if row.None? || row.value.windowStart < WindowStart(now) then None else row
  }

  function Attempts(row: Option<Row>, now: nat): nat {
    var active := ActiveState(row, now);
    if active.Some? then active.value.attempts else 0
  }

  predicate LockedAt(row: Row, now: nat) { row.lockUntil.Some? && row.lockUntil.value > now }

  predicate Locked(row: Option<Row>, now: nat) {
    var active := ActiveState(row, now);
    active.Some? && LockedAt(active.value, now)
  }

  // ---- delays

  function Pow2(n: nat): (p: nat)
    ensures p >= 1
  {
    if n == 0 then 1 else 2 * Pow2(n - 1)
  }

  function DelayForAttempts(attempts: nat): nat {
    if attempts < DELAY_START then 0 else Min(DELAY_CAP_MS, DELAY_BASE_MS * Pow2(attempts - DELAY_START))
  }

  lemma {:induction false} Pow2Grows(m: nat, n: nat)
    requires m <= n
    ensures Pow2(m) <= Pow2(n)
  {
    if m < n { Pow2Grows(m, n - 1); }
  }

  /** The delay doubles from one second at the third failure, and is at its cap from the eighth on. */
  lemma DelayTable(attempts: nat)
    ensures DelayForAttempts(attempts) ==
      if attempts < 3 then 0
      else if attempts == 3 then 1000
      else if attempts == 4 then 2000
      else if attempts == 5 then 4000
      else if attempts == 6 then 8000
      else if attempts == 7 then 16_000
      else 30_000
  {
    assert Pow2(1) == 2 && Pow2(2) == 4 && Pow2(3) == 8;
    assert Pow2(4) == 16 && Pow2(5) == 32;
    if attempts >= 8 { Pow2Grows(5, attempts - 3); }
  }

  // ---- the two implementations of incrementScope

  /** The raw SQL: INSERT ... ON CONFLICT DO UPDATE, column by column. */
  function IncrementRaw(row: Option<Row>, now: nat): Row {
    match row
    case None => Row(ROUTE_CLASS, WindowStart(now), 1, None)
    case Some(r) =>
      var rolled := r.windowStart < WindowStart(now);
      Row(ROUTE_CLASS,
          if rolled then WindowStart(now) else r.windowStart,
          if rolled then 1 else r.attempts + 1,
          if rolled then None else r.lockUntil)
  }

  /** Find, then upsert or increment. */
  function IncrementFind(row: Option<Row>, now: nat): Row {
    match ActiveState(row, now)
    case None => Row(ROUTE_CLASS, WindowStart(now), 1, None)
    case Some(r) => r.(attempts := r.attempts + 1)
  }

  function Increment(raw: bool, row: Option<Row>, now: nat): Row {
    if raw then IncrementRaw(row, now) else IncrementFind(row, now)
  }

  datatype Recorded = Recorded(row: Row, shouldNotify: bool)

  /** The lock that follows an increment of the account row. The raw path guards it a second time. */
  function Lock(raw: bool, account: Row, now: nat): Recorded {
    if account.attempts >= LOCK_THRESHOLD && !LockedAt(account, now) then
      if raw && !(account.lockUntil.None? || account.lockUntil.value <= now) then Recorded(account, false)
      else Recorded(account.(lockUntil := Some(now + LOCK_MS)), true)
    else Recorded(account, false)
  }

  datatype Failure = Failure(blocked: bool, locked: bool, networkBlocked: bool, delayMs: nat, shouldNotify: bool,
                             accountAttempts: nat, networkAttempts: nat)

  datatype Outcome = Outcome(store: Store, failure: Failure)

  function RecordFailure(raw: bool, store: Store, account: string, network: string, now: nat): Outcome {
    var net := Increment(raw, Get(store, Network(network)), now);
    var acc := Increment(raw, Get(store, Account(account)), now);
    var recorded := Lock(raw, acc, now);
    var locked := LockedAt(recorded.row, now);
    Outcome(store[Network(network) := net][Account(account) := recorded.row],
            Failure(recorded.shouldNotify || locked || net.attempts >= NETWORK_LIMIT,
                    locked, net.attempts >= NETWORK_LIMIT,
                    DelayForAttempts(acc.attempts), recorded.shouldNotify, acc.attempts, net.attempts))
  }

  function ResetAccount(store: Store, account: string): Store { store - {Account(account)} }

  datatype Status = Status(blocked: bool, locked: bool, networkBlocked: bool, delayMs: nat,
                           accountAttempts: nat, networkAttempts: nat)

  function GetStatus(store: Store, account: string, network: string, now: nat): Status {
    var acc, net := Get(store, Account(account)), Get(store, Network(network));
    var locked, networkBlocked := Locked(acc, now), Attempts(net, now) >= NETWORK_LIMIT;
    Status(locked || networkBlocked, locked, networkBlocked, DelayForAttempts(Attempts(acc, now)),
           Attempts(acc, now), Attempts(net, now))
  }

  class AuthAbuseStates {
    const raw: bool
    var states: Store

    constructor (raw: bool)
      ensures this.raw == raw && states == map[]
    {
      this.raw := raw;
      states := map[];
    }

    method IncrementScope(scope: Scope, now: nat) returns (row: Row)
      modifies this
      ensures row == Increment(raw, Get(old(states), scope), now)
      ensures states == old(states)[scope := row]
    {
      if raw {
        row := IncrementRaw(Get(states, scope), now);
        states := states[scope := row];
        return;
      }
      var current := ActiveState(Get(states, scope), now);
      if current.None? {
        row := Row(ROUTE_CLASS, WindowStart(now), 1, None);
      } else {
        row := current.value.(attempts := current.value.attempts + 1);
      }
      states := states[scope := row];
    }

    method RecordAuthFailure(account: string, network: string, now: nat) returns (failure: Failure)
      modifies this
      ensures Outcome(states, failure) == RecordFailure(raw, old(states), account, network, now)
    {
      var net := IncrementScope(Network(network), now);
      var acc := IncrementScope(Account(account), now);
      var accountState := acc;
      var shouldNotify := false;
      if acc.attempts >= LOCK_THRESHOLD && !LockedAt(acc, now) {
        if raw && !(acc.lockUntil.None? || acc.lockUntil.value <= now) {
          accountState := acc; // the guarded UPDATE matched no row
        } else {
          accountState := acc.(lockUntil := Some(now + LOCK_MS));
          states := states[Account(account) := accountState];
          shouldNotify := true;
        }
      }
      var locked := LockedAt(accountState, now);
      failure := Failure(shouldNotify || locked || net.attempts >= NETWORK_LIMIT, locked, net.attempts >= NETWORK_LIMIT,
                         DelayForAttempts(acc.attempts), shouldNotify, acc.attempts, net.attempts);
    }

    method GetAuthAbuseStatus(account: string, network: string, now: nat) returns (status: Status)
      ensures status == GetStatus(states, account, network, now)
    {
      var activeAccount := ActiveState(Get(states, Account(account)), now);
      var activeNetwork := ActiveState(Get(states, Network(network)), now);
      var locked := activeAccount.Some? && LockedAt(activeAccount.value, now);
      var accountAttempts := if activeAccount.Some? then activeAccount.value.attempts else 0;
      var networkAttempts := if activeNetwork.Some? then activeNetwork.value.attempts else 0;
      var networkBlocked := networkAttempts >= NETWORK_LIMIT;
      status := Status(locked || networkBlocked, locked, networkBlocked, DelayForAttempts(accountAttempts),
                       accountAttempts, networkAttempts);
    }

    method ResetAuthAccountFailures(account: string)
      modifies this
      ensures states == ResetAccount(old(states), account)
    {
      states := states - {Account(account)};
    }
  }

  // ---- the log that the counters stand for

  datatype Event =
    | Failed(account: string, network: string, at: nat)
    | Reset(account: string, at: nat)

  /** The clock never goes backwards along the log. */
  predicate Timely(log: seq<Event>) {
    forall i, j :: 0 <= i < j < |log| ==> log[i].at <= log[j].at
  }

  function Run(raw: bool, log: seq<Event>): Store {
    if log == [] then map[]
    else
      var n := |log| - 1;
      var before := Run(raw, log[..n]);
      match log[n]
      case Failed(a, net, at) => RecordFailure(raw, before, a, net, at).store
      case Reset(a, _) => ResetAccount(before, a)
  }

  predicate Hits(e: Event, scope: Scope) {
    e.Failed? && (scope == Account(e.account) || scope == Network(e.network))
  }

  predicate Clears(e: Event, scope: Scope) { e.Reset? && scope == Account(e.account) }

  /** The failures of a scope in the window starting at `w`, since the last reset that cleared it. */
  function Count(log: seq<Event>, scope: Scope, w: nat): nat {
    if log == [] then 0
    else
      var n := |log| - 1;
      if Clears(log[n], scope) then 0
      else Count(log[..n], scope, w) + if Hits(log[n], scope) && WindowStart(log[n].at) == w then 1 else 0
  }

  /** When the eighth of these failures came. */
  function EighthAt(log: seq<Event>, scope: Scope, w: nat): Option<nat> {
    if log == [] then None
    else
      var n := |log| - 1;
      if Clears(log[n], scope) then None
      else if Hits(log[n], scope) && WindowStart(log[n].at) == w && Count(log[..n], scope, w) == 7 then Some(log[n].at)
      else EighthAt(log[..n], scope, w)
  }

  lemma {:induction false} EighthIsCounted(log: seq<Event>, scope: Scope, w: nat)
    ensures EighthAt(log, scope, w).Some? <==> Count(log, scope, w) >= 8
    ensures EighthAt(log, scope, w).Some? ==> EighthAt(log, scope, w).value >= w
  {
    if log != [] { EighthIsCounted(log[..|log| - 1], scope, w); }
  }

  lemma EighthGrows(log: seq<Event>, e: Event, scope: Scope, w: nat)
    ensures EighthAt(log + [e], scope, w) ==
      if Clears(e, scope) then None
      else if Hits(e, scope) && WindowStart(e.at) == w && Count(log, scope, w) == 7 then Some(e.at)
      else EighthAt(log, scope, w)
  {
    assert (log + [e])[..|log|] == log;
  }

  /** A quarter of an hour after the eighth failure. */
  function LockEnd(log: seq<Event>, scope: Scope, w: nat): Option<nat> {
    var eighth := EighthAt(log, scope, w);
    if eighth.None? then None else Some(eighth.value + 900_000)
  }

  /** What a row says, read off the log: the window of its last failure, the failures in that window,
      and, for an account from the eighth failure on, a lock that outlasts the window. */
  ghost predicate Reflects(row: Option<Row>, log: seq<Event>, scope: Scope) {
    && (row.None? ==> forall w :: Count(log, scope, w) == 0)
    && (row.Some? ==>
        var r := row.value;
        && r.routeClass == ROUTE_CLASS
        && r.windowStart == WindowStart(r.windowStart)
        && r.attempts == Count(log, scope, r.windowStart) >= 1
        && (forall w :: w > r.windowStart ==> Count(log, scope, w) == 0)
        && (scope.Network? ==> r.lockUntil.None?)
        && (scope.Account? ==> (r.lockUntil.Some? <==> r.attempts >= 8))
        && (scope.Account? ==> r.lockUntil == LockEnd(log, scope, r.windowStart))
        && (r.lockUntil.Some? ==> r.lockUntil.value >= r.windowStart + WINDOW_MS))
  }

  lemma IncrementReflects(row: Option<Row>, log: seq<Event>, e: Event, scope: Scope, raw: bool)
    requires Reflects(row, log, scope) && Hits(e, scope)
    requires row.Some? ==> row.value.windowStart <= WindowStart(e.at)
    ensures var r := Increment(raw, row, e.at);
      && r.routeClass == ROUTE_CLASS
      && r.windowStart == WindowStart(e.at)
      && r.attempts == Count(log + [e], scope, r.windowStart) == Count(log, scope, r.windowStart) + 1
      && (forall w :: w > r.windowStart ==> Count(log + [e], scope, w) == 0)
      && (scope.Network? ==> r.lockUntil.None?)
      && (scope.Account? ==> (r.lockUntil.Some? <==> r.attempts > 8))
      && (scope.Account? && r.attempts != 8 ==> r.lockUntil == LockEnd(log + [e], scope, r.windowStart))
      && (r.attempts == 8 ==> LockEnd(log + [e], scope, r.windowStart) == Some(e.at + 900_000))
      && (r.lockUntil.Some? ==> r.lockUntil.value >= r.windowStart + WINDOW_MS)
  {
    assert (log + [e])[..|log|] == log;
    EighthGrows(log, e, scope, WindowStart(e.at));
    EighthIsCounted(log, scope, WindowStart(e.at));
    if row.Some? { WindowsAreDisjoint(row.value.windowStart, e.at); }
  }

  lemma OtherEventKeeps(row: Option<Row>, log: seq<Event>, e: Event, scope: Scope)
    requires Reflects(row, log, scope) && !Hits(e, scope) && !Clears(e, scope)
    ensures Reflects(row, log + [e], scope)
  {
    assert (log + [e])[..|log|] == log;
    if row.Some? {
      EighthGrows(log, e, scope, row.value.windowStart);
      assert LockEnd(log + [e], scope, row.value.windowStart) == LockEnd(log, scope, row.value.windowStart);
    }
  }

  lemma StepReflects(raw: bool, store: Store, log: seq<Event>, e: Event, scope: Scope)
    requires Timely(log + [e])
    requires Reflects(Get(store, scope), log, scope)
    requires Get(store, scope).Some? ==> store[scope].windowStart <= e.at
    ensures var after := if e.Failed? then RecordFailure(raw, store, e.account, e.network, e.at).store
                         else ResetAccount(store, e.account);
      && Reflects(Get(after, scope), log + [e], scope)
      && (Get(after, scope).Some? ==> after[scope].windowStart <= e.at)
  {
    assert (log + [e])[..|log|] == log;
    WindowsAreDisjoint(e.at, e.at);
    WindowsAreDisjoint(WindowStart(e.at), e.at);
    if Get(store, scope).Some? { WindowsAreDisjoint(store[scope].windowStart, e.at); }
    if Hits(e, scope) {
      IncrementReflects(Get(store, scope), log, e, scope, raw);
    } else if !Clears(e, scope) {
      OtherEventKeeps(Get(store, scope), log, e, scope);
    }
  }

  /** Every row of the store is what its part of the log says. */
  lemma {:induction false} StoreReflectsLog(raw: bool, log: seq<Event>, scope: Scope)
    requires Timely(log)
    ensures Reflects(Get(Run(raw, log), scope), log, scope)
    ensures Get(Run(raw, log), scope).Some? ==> log != [] && Run(raw, log)[scope].windowStart <= log[|log| - 1].at
  {
    if log != [] {
      var n := |log| - 1;
      StoreReflectsLog(raw, log[..n], scope);
      assert log[..n] + [log[n]] == log;
      StepReflects(raw, Run(raw, log[..n]), log[..n], log[n], scope);
    }
  }

  ghost predicate NotBefore(now: nat, log: seq<Event>) { forall i :: 0 <= i < |log| ==> log[i].at <= now }

  lemma AttemptsAreCounted(raw: bool, log: seq<Event>, scope: Scope, now: nat)
    requires Timely(log) && NotBefore(now, log)
    ensures Attempts(Get(Run(raw, log), scope), now) == Count(log, scope, WindowStart(now))
    ensures scope.Account? ==>
      (Locked(Get(Run(raw, log), scope), now) <==> Count(log, scope, WindowStart(now)) >= LOCK_THRESHOLD)
  {
    StoreReflectsLog(raw, log, scope);
    var row := Get(Run(raw, log), scope);
    if row.Some? { WindowsAreDisjoint(row.value.windowStart, now); }
  }

  /** The status a login sees is a reading of the failure log: the counts of the current window since the last
      reset, locked from the eighth, the network blocked from the twentieth, the delay by the account's count. */
  lemma StatusReadsLog(raw: bool, log: seq<Event>, account: string, network: string, now: nat)
    requires Timely(log) && NotBefore(now, log)
    ensures var a, n := Count(log, Account(account), WindowStart(now)), Count(log, Network(network), WindowStart(now));
      GetStatus(Run(raw, log), account, network, now) ==
      Status(a >= 8 || n >= 20, a >= 8, n >= 20, DelayForAttempts(a), a, n)
  {
    AttemptsAreCounted(raw, log, Account(account), now);
    AttemptsAreCounted(raw, log, Network(network), now);
  }

  /** Recording a failure reports the counts with that failure in, and asks for a notification on the eighth only. */
  lemma FailureReadsLog(raw: bool, log: seq<Event>, e: Event)
    requires Timely(log + [e]) && e.Failed?
    ensures var w := WindowStart(e.at);
      var a, n := Count(log, Account(e.account), w) + 1, Count(log, Network(e.network), w) + 1;
      RecordFailure(raw, Run(raw, log), e.account, e.network, e.at).failure ==
      Failure(a >= 8 || n >= 20, a >= 8, n >= 20, DelayForAttempts(a), a == 8, a, n)
  {
    assert forall i :: 0 <= i < |log| ==> (log + [e])[i] == log[i];
    assert (log + [e])[|log|] == e;
    var store := Run(raw, log);
    forall scope | Hits(e, scope) ensures
      Increment(raw, Get(store, scope), e.at).attempts == Count(log, scope, WindowStart(e.at)) + 1
    {
      ScopeReflects(raw, log, e, scope);
    }
    ScopeReflects(raw, log, e, Account(e.account));
  }

  lemma ScopeReflects(raw: bool, log: seq<Event>, e: Event, scope: Scope)
    requires Timely(log + [e]) && Hits(e, scope)
    ensures var r := Increment(raw, Get(Run(raw, log), scope), e.at);
      && r.attempts == Count(log, scope, WindowStart(e.at)) + 1
      && (scope.Account? ==> (LockedAt(r, e.at) <==> r.attempts > LOCK_THRESHOLD))
  {
    assert forall i :: 0 <= i < |log| ==> (log + [e])[i] == log[i];
    assert (log + [e])[|log|] == e;
    StoreReflectsLog(raw, log, scope);
    var row := Get(Run(raw, log), scope);
    if row.Some? { WindowsAreDisjoint(row.value.windowStart, e.at); }
    IncrementReflects(row, log, e, scope, raw);
  }

  /** The failures of an account in a window, since its last reset, that asked for a notification. */
  function Notified(raw: bool, log: seq<Event>, account: string, w: nat): nat {
    if log == [] then 0
    else
      var n := |log| - 1;
      var e := log[n];
      if Clears(e, Account(account)) then 0
      else
        var asked :=
          && e.Failed? && e.account == account && WindowStart(e.at) == w
          && RecordFailure(raw, Run(raw, log[..n]), e.account, e.network, e.at).failure.shouldNotify;
        Notified(raw, log[..n], account, w) + if asked then 1 else 0
  }

  /** Between resets an account is notified at most once per window: once if it reached the lock, else never. */
  lemma {:induction false} NotifiedOncePerWindow(raw: bool, log: seq<Event>, account: string, w: nat)
    requires Timely(log)
    ensures Notified(raw, log, account, w) == if Count(log, Account(account), w) >= 8 then 1 else 0
  {
    if log != [] {
      var n := |log| - 1;
      var e := log[n];
      assert log[..n] + [e] == log;
      NotifiedOncePerWindow(raw, log[..n], account, w);
      if e.Failed? && e.account == account { FailureReadsLog(raw, log[..n], e); }
    }
  }

  predicate OfLogin(row: Option<Row>) { row.Some? ==> row.value.routeClass == ROUTE_CLASS }

  lemma FailuresAgree(store: Store, account: string, network: string, now: nat)
    requires OfLogin(Get(store, Account(account))) && OfLogin(Get(store, Network(network)))
    ensures RecordFailure(true, store, account, network, now) == RecordFailure(false, store, account, network, now)
  {
    var acc, net := Get(store, Account(account)), Get(store, Network(network));
    assert Increment(true, acc, now) == Increment(false, acc, now);
    assert Increment(true, net, now) == Increment(false, net, now);
    var a := Increment(true, acc, now);
    assert Lock(true, a, now) == Lock(false, a, now);
  }

  /** The raw SQL and the find/upsert code leave the same rows and report the same failures on every run. */
  lemma {:induction false} PathsAgree(log: seq<Event>)
    requires Timely(log)
    ensures Run(true, log) == Run(false, log)
    ensures forall a, n, now ::
      RecordFailure(true, Run(true, log), a, n, now) == RecordFailure(false, Run(false, log), a, n, now)
  {
    if log != [] {
      PathsAgree(log[..|log| - 1]);
      var e := log[|log| - 1];
      if e.Failed? { PathsAgreeNext(log[..|log| - 1], e.account, e.network, e.at); }
    }
    forall a, n, now
      ensures RecordFailure(true, Run(true, log), a, n, now) == RecordFailure(false, Run(false, log), a, n, now)
    { PathsAgreeNext(log, a, n, now); }
  }

  lemma PathsAgreeNext(log: seq<Event>, account: string, network: string, now: nat)
    requires Timely(log) && Run(true, log) == Run(false, log)
    ensures RecordFailure(true, Run(true, log), account, network, now) ==
      RecordFailure(false, Run(false, log), account, network, now)
  {
    StoreReflectsLog(true, log, Account(account));
    StoreReflectsLog(true, log, Network(network));
    FailuresAgree(Run(true, log), account, network, now);
  }
}
