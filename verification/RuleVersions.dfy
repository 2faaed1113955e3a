/** The versioned checkout rules of a merchant (`checkout-admin.service.ts`): updates, rollbacks and reads. */
module RuleVersions {
  import opened Base
  import opened JsonValues
  import Text

  datatype Status = Active | Retired

  datatype Version = Version(merchantId: string, status: Status, rules: Json)

  datatype Setting = Setting(activeVersion: nat, quoteTtlSeconds: nat)

  datatype Audit = Audit(merchantId: string, action: string, version: nat)

  datatype State = State(merchants: set<string>, versions: map<nat, Version>, settings: map<string, Setting>,
      audit: seq<Audit>)

  const DEFAULT_TTL: nat := 900

  function Initial(merchants: set<string>): State { State(merchants, map[], map[], []) }

  /** One request. `valid` is the verdict of `validateCheckoutRules` on the rules at hand, `id` the fresh version id. */
  datatype Op =
    | Update(merchant: string, rules: Json, ttl: Option<nat>, valid: bool, id: nat)
    | Rollback(merchant: string, source: nat, valid: bool, id: nat)

  // ---- what is stored: bigints written as decimal strings

  function DecimalNat(n: nat): string {
    if n < 10 then ['0' + n as char] else DecimalNat(n / 10) + ['0' + (n % 10) as char]
  }

  function Decimal(i: int): string { if i < 0 then "-" + DecimalNat(-i) else DecimalNat(i) }

  function RulesJson(v: Json): Json {
    match v
    case Big(i) => Str(Decimal(i))
    case Arr(items) => Arr(seq(|items|, k requires 0 <= k < |items| => RulesJson(items[k])))
    case Obj(fields) => Obj(seq(|fields|,
      k requires 0 <= k < |fields| => Field(fields[k].key, RulesJson(fields[k].value))))
    case _ => v
  }

  predicate NoBig(v: Json) {
    match v
    case Big(_) => false
    case Arr(items) => forall k :: 0 <= k < |items| ==> NoBig(items[k])
    case Obj(fields) => forall k :: 0 <= k < |fields| ==> NoBig(fields[k].value)
    case _ => true
  }

  lemma {:induction false} RulesJsonIsStorable(v: Json)
    ensures NoBig(RulesJson(v))
  {
    match v {
      case Arr(items) =>
        forall k | 0 <= k < |items| ensures NoBig(RulesJson(items[k])) { RulesJsonIsStorable(items[k]); }
      case Obj(fields) =>
        forall k | 0 <= k < |fields| ensures NoBig(RulesJson(fields[k].value)) { RulesJsonIsStorable(fields[k].value); }
      case _ =>
    }
  }

  /** The text of a number: its digits, without a leading zero. */
  predicate Spells(s: string, n: nat) {
    s != "" && Text.Digits(s) && Text.ParseDigits(s) == n && (s[0] == '0' ==> s == "0")
  }

  lemma {:induction false} DecimalNatSpells(n: nat)
    ensures Spells(DecimalNat(n), n)
  {
    var last := ['0' + (n % 10) as char];
    assert Text.Digits(last) && (last[0] - '0') as nat == n % 10;
    if n < 10 {
      assert last[..0] == "" && DecimalNat(n) == last;
      assert n == 0 ==> last == "0";
    } else {
      DecimalNatSpells(n / 10);
      var init := DecimalNat(n / 10);
      var s := init + last;
      assert s[..|s| - 1] == init && s[|s| - 1] == last[0] && s[0] == init[0];
      assert init != "0" by { assert "0"[..0] == "" && Text.ParseDigits("0") == 0; }
    }
  }

  /** What is stored for a body: the same body, with each bigint at any depth written as its decimal digits, a
      minus sign before them if it is negative. */
  predicate StoredAs(v: Json, w: Json) {
    match v
    case Big(i) =>
      w.Str? && if i < 0 then w.s != "" && w.s[0] == '-' && Spells(w.s[1..], -i) else Spells(w.s, i)
    case Arr(items) =>
      w.Arr? && |w.items| == |items| && forall k :: 0 <= k < |items| ==> StoredAs(items[k], w.items[k])
    case Obj(fields) =>
      && w.Obj? && |w.fields| == |fields|
      && forall k :: 0 <= k < |fields| ==>
           w.fields[k].key == fields[k].key && StoredAs(fields[k].value, w.fields[k].value)
    case _ => w == v
  }

  lemma {:induction false} RulesJsonIsStored(v: Json)
    ensures StoredAs(v, RulesJson(v))
  {
    match v {
      case Big(i) =>
        DecimalNatSpells(if i < 0 then -i else i);
        if i < 0 { assert Decimal(i)[1..] == DecimalNat(-i); }
      case Arr(items) =>
        forall k | 0 <= k < |items| ensures StoredAs(items[k], RulesJson(v).items[k]) { RulesJsonIsStored(items[k]); }
      case Obj(fields) =>
        forall k | 0 <= k < |fields| ensures StoredAs(fields[k].value, RulesJson(v).fields[k].value) {
          RulesJsonIsStored(fields[k].value);
        }
      case _ =>
    }
  }

  /** A stored body is stored again unchanged, which is why a rollback restores it exactly. */
  lemma {:induction false} RulesJsonFixesStored(v: Json)
    requires NoBig(v)
    ensures RulesJson(v) == v
  {
    match v {
      case Arr(items) =>
        forall k | 0 <= k < |items| ensures RulesJson(items[k]) == items[k] { RulesJsonFixesStored(items[k]); }
        assert RulesJson(v).items == items;
      case Obj(fields) =>
        forall k | 0 <= k < |fields| ensures RulesJson(fields[k].value) == fields[k].value {
          RulesJsonFixesStored(fields[k].value);
        }
        assert RulesJson(v).fields == fields;
      case _ =>
    }
  }

  // ---- the operations

  function Retire(versions: map<nat, Version>, m: string): map<nat, Version> {
    map v | v in versions ::
      if versions[v].merchantId == m && versions[v].status == Active then versions[v].(status := Retired)
      else versions[v]
  }

  /** The common transaction: retire, create, point the setting at the new version, audit. */
  function Publish(s: State, m: string, rules: Json, ttl: Option<nat>, id: nat, action: string): State {
    var versions := Retire(s.versions, m)[id := Version(m, Active, RulesJson(rules))];
    var setting :=
      if m in s.settings then Setting(id, if ttl.Some? then ttl.value else s.settings[m].quoteTtlSeconds)
      else Setting(id, if ttl.Some? then ttl.value else DEFAULT_TTL);
    State(s.merchants, versions, s.settings[m := setting], s.audit + [Audit(m, action, id)])
  }

  function Check(s: State, op: Op): Result<string> {
    var m := Text.Trim(op.merchant);
    if m == "" then Err(HttpError(400, "CHECKOUT_MERCHANT_REQUIRED"))
    else if op.Rollback? && !(op.source in s.versions && s.versions[op.source].merchantId == m) then
      Err(HttpError(404, "CHECKOUT_RULES_VERSION_NOT_FOUND"))
    else if !op.valid then Err(HttpError(400, "CHECKOUT_RULES_INVALID"))
    else if op.Update? && m !in s.merchants then Err(HttpError(404, "CHECKOUT_MERCHANT_NOT_FOUND"))
    else Ok(m)
  }

  function Next(s: State, op: Op): State {
    match Check(s, op)
    case Err(_) => s
    case Ok(m) =>
      if op.id in s.versions then s
      else match op
        case Update(_, rules, ttl, _, id) => Publish(s, m, rules, ttl, id, "checkout.rules.updated")
        case Rollback(_, source, _, id) =>
          Publish(s, m, s.versions[source].rules, None, id, "checkout.rules.rolled_back")
  }

  datatype RulesView = RulesView(merchantId: string, quoteTtlSeconds: nat, activeVersion: Option<nat>, rules: Json)

  function GetRules(s: State, defaults: Json, merchant: string): Result<RulesView> {
    var m := Text.Trim(merchant);
    if m == "" then Err(HttpError(400, "CHECKOUT_MERCHANT_REQUIRED"))
    else if m !in s.settings then Ok(RulesView(m, DEFAULT_TTL, None, defaults))
    else
      var setting := s.settings[m];
      if setting.activeVersion in s.versions then
        Ok(RulesView(m, setting.quoteTtlSeconds, Some(setting.activeVersion), s.versions[setting.activeVersion].rules))
      else Ok(RulesView(m, setting.quoteTtlSeconds, None, defaults))
  }

  function Run(s: State, ops: seq<Op>): State {
    if ops == [] then s else var n := |ops| - 1; Next(Run(s, ops[..n]), ops[n])
  }

  class CheckoutAdminService {
    const merchants: set<string>
    var versions: map<nat, Version>
    var settings: map<string, Setting>
    var audit: seq<Audit>

    ghost function Abstract(): State
      reads this
    {
      State(merchants, versions, settings, audit)
    }

    constructor (merchants: set<string>)
      ensures Abstract() == Initial(merchants)
    {
      this.merchants := merchants;
      versions, settings, audit := map[], map[], [];
    }

    method UpdateRules(merchant: string, rules: Json, ttl: Option<nat>, valid: bool, id: nat)
      returns (r: Result<Version>)
      requires id !in versions
      modifies this
      ensures Abstract() == Next(old(Abstract()), Update(merchant, rules, ttl, valid, id))
      ensures r.Ok? <==> Check(old(Abstract()), Update(merchant, rules, ttl, valid, id)).Ok?
      ensures r.Ok? ==> r.value == versions[id]
      ensures r.Err? ==> r.error == Check(old(Abstract()), Update(merchant, rules, ttl, valid, id)).error
    {
      var m := Text.Trim(merchant);
      if m == "" { return Err(HttpError(400, "CHECKOUT_MERCHANT_REQUIRED")); }
      if !valid { return Err(HttpError(400, "CHECKOUT_RULES_INVALID")); }
      if m !in merchants { return Err(HttpError(404, "CHECKOUT_MERCHANT_NOT_FOUND")); }
      versions := Retire(versions, m);
      versions := versions[id := Version(m, Active, RulesJson(rules))];
      if m in settings {
        settings := settings[m := settings[m].(activeVersion := id)];
        if ttl.Some? { settings := settings[m := settings[m].(quoteTtlSeconds := ttl.value)]; }
      } else {
        settings := settings[m := Setting(id, if ttl.Some? then ttl.value else DEFAULT_TTL)];
      }
      audit := audit + [Audit(m, "checkout.rules.updated", id)];
      return Ok(versions[id]);
    }

    method RollbackRules(merchant: string, source: nat, valid: bool, id: nat) returns (r: Result<Version>)
      requires id !in versions
      modifies this
      ensures Abstract() == Next(old(Abstract()), Rollback(merchant, source, valid, id))
      ensures r.Ok? <==> Check(old(Abstract()), Rollback(merchant, source, valid, id)).Ok?
      ensures r.Ok? ==> r.value == versions[id]
      ensures r.Err? ==> r.error == Check(old(Abstract()), Rollback(merchant, source, valid, id)).error
    {
      var m := Text.Trim(merchant);
      if m == "" { return Err(HttpError(400, "CHECKOUT_MERCHANT_REQUIRED")); }
      if source !in versions || versions[source].merchantId != m {
        return Err(HttpError(404, "CHECKOUT_RULES_VERSION_NOT_FOUND"));
      }
      var rules := versions[source].rules;
      if !valid { return Err(HttpError(400, "CHECKOUT_RULES_INVALID")); }
      versions := Retire(versions, m);
      versions := versions[id := Version(m, Active, RulesJson(rules))];
      if m in settings {
        settings := settings[m := settings[m].(activeVersion := id)];
      } else {
        settings := settings[m := Setting(id, DEFAULT_TTL)];
      }
      audit := audit + [Audit(m, "checkout.rules.rolled_back", id)];
      return Ok(versions[id]);
    }
  }

  // ---- the register, said as a history of commits

  datatype Commit = Commit(merchantId: string, id: nat, rules: Json, ttl: Option<nat>)

  /** The rules that the commit `id` put in force. */
  function RulesOf(h: seq<Commit>, m: string, id: nat): Option<Json> {
    if h == [] then None
    else
      var c := h[|h| - 1];
      if c.id == id then (if c.merchantId == m then Some(c.rules) else None)
      else RulesOf(h[..|h| - 1], m, id)
  }

  predicate UsedId(h: seq<Commit>, id: nat) {
    h != [] && (h[|h| - 1].id == id || UsedId(h[..|h| - 1], id))
  }

  /** What an accepted request means: an update commits its rules, a rollback commits an earlier commit's rules. */
  function Record(merchants: set<string>, h: seq<Commit>, op: Op): seq<Commit> {
    var m := Text.Trim(op.merchant);
    if m == "" || !op.valid || UsedId(h, op.id) then h
    else match op
      case Update(_, rules, ttl, _, id) => if m in merchants then h + [Commit(m, id, RulesJson(rules), ttl)] else h
      case Rollback(_, source, _, id) =>
        var rules := RulesOf(h, m, source);
        if rules.Some? then h + [Commit(m, id, rules.value, None)] else h
  }

  function History(merchants: set<string>, ops: seq<Op>): seq<Commit> {
    if ops == [] then [] else var n := |ops| - 1; Record(merchants, History(merchants, ops[..n]), ops[n])
  }

  function LastCommit(h: seq<Commit>, m: string): Option<Commit> {
    if h == [] then None
    else if h[|h| - 1].merchantId == m then Some(h[|h| - 1])
    else LastCommit(h[..|h| - 1], m)
  }

  /** The last quote lifetime that a commit of the merchant named. */
  function LastTtl(h: seq<Commit>, m: string): nat {
    if h == [] then 900
    else if h[|h| - 1].merchantId == m && h[|h| - 1].ttl.Some? then h[|h| - 1].ttl.value
    else LastTtl(h[..|h| - 1], m)
  }

  ghost predicate BodiesMatch(s: State, h: seq<Commit>) {
    && (forall id :: id in s.versions <==> UsedId(h, id))
    && (forall id :: id in s.versions ==> NoBig(s.versions[id].rules))
    && (forall id, m :: RulesOf(h, m, id) == StoredRules(s, m, id))
  }

  function StoredRules(s: State, m: string, id: nat): Option<Json> {
    if id in s.versions && s.versions[id].merchantId == m then Some(s.versions[id].rules) else None
  }

  ghost predicate SettingsMatch(s: State, h: seq<Commit>) {
    && (forall m :: m in s.settings <==> LastCommit(h, m).Some?)
    && (forall m :: m in s.settings ==> s.settings[m] == Setting(LastCommit(h, m).value.id, LastTtl(h, m)))
  }

  predicate IsLast(h: seq<Commit>, m: string, id: nat) {
    LastCommit(h, m).Some? && LastCommit(h, m).value.id == id
  }

  ghost predicate ActiveIsLast(s: State, h: seq<Commit>) {
    forall id :: id in s.versions ==> (s.versions[id].status == Active <==> IsLast(h, s.versions[id].merchantId, id))
  }

  /** The tables say exactly what the history says. */
  ghost predicate Explains(s: State, h: seq<Commit>) {
    BodiesMatch(s, h) && SettingsMatch(s, h) && ActiveIsLast(s, h) && |s.audit| == |h| && UniqueIds(h)
  }

  predicate UniqueIds(h: seq<Commit>) {
    h == [] || (!UsedId(h[..|h| - 1], h[|h| - 1].id) && UniqueIds(h[..|h| - 1]))
  }

  lemma LastCommitIsUsed(h: seq<Commit>, m: string)
    ensures LastCommit(h, m).Some? ==>
      var c := LastCommit(h, m).value; c.merchantId == m && UsedId(h, c.id)
  {
  }

  lemma Appended(h: seq<Commit>, c: Commit)
    ensures forall m :: LastCommit(h + [c], m) == if m == c.merchantId then Some(c) else LastCommit(h, m)
    ensures forall m :: LastTtl(h + [c], m) == if m == c.merchantId && c.ttl.Some? then c.ttl.value else LastTtl(h, m)
    ensures forall id :: UsedId(h + [c], id) <==> id == c.id || UsedId(h, id)
    ensures forall id, m ::
      RulesOf(h + [c], m, id) ==
        if id != c.id then RulesOf(h, m, id) else if m == c.merchantId then Some(c.rules) else None
    ensures !UsedId(h, c.id) && UniqueIds(h) ==> UniqueIds(h + [c])
  {
    assert (h + [c])[..|h|] == h;
  }

  lemma PublishMatchesBodies(s: State, h: seq<Commit>, m: string, rules: Json, ttl: Option<nat>, id: nat,
      action: string)
    requires BodiesMatch(s, h) && id !in s.versions
    ensures BodiesMatch(Publish(s, m, rules, ttl, id, action), h + [Commit(m, id, RulesJson(rules), ttl)])
  {
    var t, g := Publish(s, m, rules, ttl, id, action), h + [Commit(m, id, RulesJson(rules), ttl)];
    Appended(h, Commit(m, id, RulesJson(rules), ttl));
    RulesJsonIsStorable(rules);
    forall k, n ensures RulesOf(g, n, k) == StoredRules(t, n, k) {
      assert RulesOf(h, n, k) == StoredRules(s, n, k);
    }
  }

  lemma PublishMatchesSettings(s: State, h: seq<Commit>, m: string, rules: Json, ttl: Option<nat>, id: nat,
      action: string)
    requires SettingsMatch(s, h)
    ensures SettingsMatch(Publish(s, m, rules, ttl, id, action), h + [Commit(m, id, RulesJson(rules), ttl)])
  {
    Appended(h, Commit(m, id, RulesJson(rules), ttl));
    if m !in s.settings { NoCommitNoTtl(h, m); }
  }

  lemma PublishExplains(s: State, h: seq<Commit>, m: string, rules: Json, ttl: Option<nat>, id: nat, action: string)
    requires Explains(s, h) && id !in s.versions
    ensures Explains(Publish(s, m, rules, ttl, id, action), h + [Commit(m, id, RulesJson(rules), ttl)])
  {
    var c := Commit(m, id, RulesJson(rules), ttl);
    var t, g := Publish(s, m, rules, ttl, id, action), h + [c];
    Appended(h, c);
    PublishMatchesSettings(s, h, m, rules, ttl, id, action);
    PublishMatchesBodies(s, h, m, rules, ttl, id, action);
    forall k | k in t.versions ensures t.versions[k].status == Active <==> IsLast(g, t.versions[k].merchantId, k) {
      LastCommitIsUsed(h, t.versions[k].merchantId);
    }
  }

  lemma NoCommitNoTtl(h: seq<Commit>, m: string)
    requires LastCommit(h, m).None?
    ensures LastTtl(h, m) == DEFAULT_TTL
  {
  }

  lemma StepExplains(s: State, h: seq<Commit>, op: Op)
    requires Explains(s, h)
    ensures Explains(Next(s, op), Record(s.merchants, h, op))
  {
    var m := Text.Trim(op.merchant);
    match op {
      case Update(_, rules, ttl, _, id) =>
        if Check(s, op).Ok? && id !in s.versions {
          PublishExplains(s, h, m, rules, ttl, id, "checkout.rules.updated");
        }
      case Rollback(_, source, _, id) =>
        assert RulesOf(h, m, source) == StoredRules(s, m, source);
        if Check(s, op).Ok? && id !in s.versions {
          RulesJsonFixesStored(s.versions[source].rules);
          PublishExplains(s, h, m, s.versions[source].rules, None, id, "checkout.rules.rolled_back");
        }
    }
  }

  lemma {:induction false} RunExplains(merchants: set<string>, ops: seq<Op>)
    ensures Explains(Run(Initial(merchants), ops), History(merchants, ops))
    ensures Run(Initial(merchants), ops).merchants == merchants
  {
    if ops != [] {
      var n := |ops| - 1;
      RunExplains(merchants, ops[..n]);
      StepExplains(Run(Initial(merchants), ops[..n]), History(merchants, ops[..n]), ops[n]);
    }
  }

  // ---- what readers may rely on

  /** After any history of updates and rollbacks a merchant reads back its last committed rules. */
  lemma {:induction false} ReadsLastCommit(merchants: set<string>, ops: seq<Op>, defaults: Json, merchant: string)
    ensures Text.Trim(merchant) == "" ==>
      GetRules(Run(Initial(merchants), ops), defaults, merchant) == Err(HttpError(400, "CHECKOUT_MERCHANT_REQUIRED"))
    ensures Text.Trim(merchant) != "" ==>
      var m, h := Text.Trim(merchant), History(merchants, ops);
      var last := LastCommit(h, m);
      GetRules(Run(Initial(merchants), ops), defaults, merchant) == Ok(RulesView(m, LastTtl(h, m),
        if last.Some? then Some(last.value.id) else None,
        if last.Some? then last.value.rules else defaults))
  {
    var m, h := Text.Trim(merchant), History(merchants, ops);
    RunExplains(merchants, ops);
    LastCommitIsUsed(h, m);
    RulesOfLast(h, m);
    if LastCommit(h, m).None? { NoCommitNoTtl(h, m); }
  }

  /** What a refused request is told, read off the history: a merchant is named, a rollback names a version that was
      committed for this merchant, the rules are valid, and an update is for a known merchant. */
  function Refusal(merchants: set<string>, h: seq<Commit>, op: Op): Option<HttpError> {
    var m := Text.Trim(op.merchant);
    if m == "" then Some(HttpError(400, "CHECKOUT_MERCHANT_REQUIRED"))
    else if op.Rollback? && RulesOf(h, m, op.source).None? then Some(HttpError(404, "CHECKOUT_RULES_VERSION_NOT_FOUND"))
    else if !op.valid then Some(HttpError(400, "CHECKOUT_RULES_INVALID"))
    else if op.Update? && m !in merchants then Some(HttpError(404, "CHECKOUT_MERCHANT_NOT_FOUND"))
    else None
  }

  /** After any history a request is accepted or refused as the history says, and leaves one audit row of its kind
      if it is accepted, nothing if not. */
  lemma {:induction false} RequestsAreAnswered(merchants: set<string>, ops: seq<Op>, op: Op)
    requires op.id !in Run(Initial(merchants), ops).versions
    ensures var s := Run(Initial(merchants), ops); var refusal := Refusal(merchants, History(merchants, ops), op);
      && (refusal.None? ==> Check(s, op) == Ok(Text.Trim(op.merchant)))
      && (refusal.Some? ==> Check(s, op) == Err(refusal.value) && Next(s, op) == s)
      && (refusal.None? ==>
            Next(s, op).audit == s.audit + [Audit(Text.Trim(op.merchant),
              if op.Update? then "checkout.rules.updated" else "checkout.rules.rolled_back", op.id)])
  {
    RunExplains(merchants, ops);
    var s, h, m := Run(Initial(merchants), ops), History(merchants, ops), Text.Trim(op.merchant);
    RunKeepsMerchants(merchants, ops);
    if op.Rollback? { assert RulesOf(h, m, op.source) == StoredRules(s, m, op.source); }
  }

  lemma {:induction false} RunKeepsMerchants(merchants: set<string>, ops: seq<Op>)
    ensures Run(Initial(merchants), ops).merchants == merchants
  {
    if ops != [] { RunKeepsMerchants(merchants, ops[..|ops| - 1]); }
  }

  /** Exactly one version of a merchant with any version is active, and the setting points at it. */
  lemma {:induction false} ExactlyOneActive(merchants: set<string>, ops: seq<Op>, m: string)
    requires var s := Run(Initial(merchants), ops);
      exists v :: v in s.versions && s.versions[v].merchantId == m
    ensures var s := Run(Initial(merchants), ops);
      && m in s.settings
      && s.settings[m].activeVersion in s.versions
      && forall v :: v in s.versions && s.versions[v].merchantId == m ==>
           (s.versions[v].status == Active <==> v == s.settings[m].activeVersion)
  {
    RunExplains(merchants, ops);
    var s, h := Run(Initial(merchants), ops), History(merchants, ops);
    LastCommitIsUsed(h, m);
    var v :| v in s.versions && s.versions[v].merchantId == m;
    assert RulesOf(h, m, v) == StoredRules(s, m, v);
    RulesOfHasLast(h, m, v);
  }

  lemma RulesOfHasLast(h: seq<Commit>, m: string, id: nat)
    requires RulesOf(h, m, id).Some?
    ensures LastCommit(h, m).Some?
  {
  }

  /** Once written, a version keeps its merchant and its body, and once retired it stays retired. */
  lemma {:induction false} VersionsOnlyRetire(s: State, more: seq<Op>, v: nat)
    requires v in s.versions
    ensures var t := Run(s, more);
      && v in t.versions
      && t.versions[v].merchantId == s.versions[v].merchantId
      && t.versions[v].rules == s.versions[v].rules
      && (s.versions[v].status == Retired ==> t.versions[v].status == Retired)
  {
    if more != [] { VersionsOnlyRetire(s, more[..|more| - 1], v); }
  }

  /** A merchant's setting, if any, points at a version. */
  predicate Points(s: State, m: string) { m in s.settings ==> s.settings[m].activeVersion in s.versions }

  lemma OtherMerchantUntouched(s: State, op: Op, other: string)
    requires Text.Trim(op.merchant) != other && Points(s, other)
    ensures var t := Next(s, op);
      && (other in t.settings <==> other in s.settings)
      && (other in s.settings ==> t.settings[other] == s.settings[other])
      && Points(t, other)
      && (forall v :: v in s.versions ==>
            v in t.versions && t.versions[v].merchantId == s.versions[v].merchantId
            && (s.versions[v].merchantId == other ==> t.versions[v] == s.versions[v]))
  {
  }

  /** Whatever the other merchants do, what a merchant reads and all of its versions stay. */
  lemma {:induction false} OtherMerchantsUntouched(s: State, more: seq<Op>, defaults: Json, other: string)
    requires forall i :: 0 <= i < |more| ==> Text.Trim(more[i].merchant) != Text.Trim(other)
    requires Points(s, Text.Trim(other))
    ensures var t, m := Run(s, more), Text.Trim(other);
      && Points(t, m) && GetRules(t, defaults, other) == GetRules(s, defaults, other)
      && forall v :: v in s.versions && s.versions[v].merchantId == m ==>
         v in t.versions && t.versions[v] == s.versions[v]
  {
    if more != [] {
      var n := |more| - 1;
      OtherMerchantsUntouched(s, more[..n], defaults, other);
      OtherMerchantUntouched(Run(s, more[..n]), more[n], Text.Trim(other));
    }
  }

  /** Rolling back to a version puts exactly its stored body back in force, under a new id. */
  lemma {:induction false} RollbackRestores(merchants: set<string>, ops: seq<Op>, op: Op, defaults: Json)
    requires op.Rollback? && op.id !in Run(Initial(merchants), ops).versions
    requires Check(Run(Initial(merchants), ops), op).Ok?
    ensures var s := Run(Initial(merchants), ops);
      var view := GetRules(Next(s, op), defaults, op.merchant);
      && view.Ok?
      && view.value.rules == s.versions[op.source].rules
      && view.value.activeVersion == Some(op.id)
      && view.value.quoteTtlSeconds == LastTtl(History(merchants, ops), Text.Trim(op.merchant))
  {
    RunExplains(merchants, ops);
    var s, m := Run(Initial(merchants), ops), Text.Trim(op.merchant);
    RulesJsonFixesStored(s.versions[op.source].rules);
    var h := History(merchants, ops);
    assert RulesOf(h, m, op.source) == StoredRules(s, m, op.source);
    RulesOfHasLast(h, m, op.source);
  }

  lemma RulesOfLast(h: seq<Commit>, m: string)
    requires UniqueIds(h)
    ensures LastCommit(h, m).Some? ==> RulesOf(h, m, LastCommit(h, m).value.id) == Some(LastCommit(h, m).value.rules)
  {
    if h != [] { LastCommitIsUsed(h[..|h| - 1], m); }
  }
}
