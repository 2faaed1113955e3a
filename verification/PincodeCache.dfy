/** The bounded pincode cache and the lookup in front of the pincode table (`pincode.service.ts`). */
module PincodeCache {
  import opened Base
  import opened Text

  datatype PincodeResponse = PincodeResponse(city: string, district: string, state: string, localities: seq<string>)

  /** A table row; `localities` is None when the stored value is not an array. */
  datatype PincodeRow = PincodeRow(city: string, district: string, state: string, localities: Option<seq<string>>)

  type Table = map<string, PincodeRow>

  /** A JavaScript Map in its insertion order. */
  datatype Entry = Entry(pin: string, value: PincodeResponse)

  predicate Distinct(rows: seq<Entry>) {
    forall i, j :: 0 <= i < j < |rows| ==> rows[i].pin != rows[j].pin
  }

  function Find(rows: seq<Entry>, pin: string): Option<PincodeResponse> {
    if rows == [] then None
    else if rows[0].pin == pin then Some(rows[0].value)
    else Find(rows[1..], pin)
  }

  function Delete(rows: seq<Entry>, pin: string): seq<Entry> {
    if rows == [] then []
    else if rows[0].pin == pin then Delete(rows[1..], pin)
    else [rows[0]] + Delete(rows[1..], pin)
  }

  /** Eviction drops the oldest entries; an empty key stops it, as the falsy test in the loop does. */
  function Evict(rows: seq<Entry>, maxEntries: int): seq<Entry> {
    if |rows| > maxEntries && rows != [] && rows[0].pin != "" then Evict(rows[1..], maxEntries) else rows
  }

  function Touch(rows: seq<Entry>, pin: string): seq<Entry> {
    match Find(rows, pin)
    case None => rows
    case Some(value) => Delete(rows, pin) + [Entry(pin, value)]
  }

  function Store(rows: seq<Entry>, maxEntries: int, pin: string, value: PincodeResponse): seq<Entry> {
    Evict(Delete(rows, pin) + [Entry(pin, value)], maxEntries)
  }

  class BoundedPincodeCache {
    const maxEntries: int
    var rows: seq<Entry>

    ghost predicate Valid()
      reads this
    {
      Distinct(rows)
    }

    constructor (maxEntries: int)
      ensures Valid() && rows == [] && this.maxEntries == maxEntries
    {
      this.maxEntries := maxEntries;
      rows := [];
    }

    method Get(pin: string) returns (value: Option<PincodeResponse>)
      requires Valid()
      modifies this
      ensures Valid() && rows == Touch(old(rows), pin) && value == Find(old(rows), pin)
    {
      value := Find(rows, pin);
      if value == None { return; }
      PushKeepsDistinct(rows, Entry(pin, value.value));
      rows := Delete(rows, pin);
      rows := rows + [Entry(pin, value.value)];
    }

    method Set(pin: string, value: PincodeResponse)
      requires Valid()
      modifies this
      ensures Valid() && rows == Store(old(rows), maxEntries, pin, value)
    {
      PushKeepsDistinct(rows, Entry(pin, value));
      if Find(rows, pin).Some? {
        rows := Delete(rows, pin);
      } else {
        FindNoneDeletes(rows, pin);
      }
      rows := rows + [Entry(pin, value)];
      while |rows| > maxEntries
        invariant Distinct(rows)
        invariant Evict(rows, maxEntries) == Store(old(rows), maxEntries, pin, value)
        decreases |rows|
      {
        if rows == [] || rows[0].pin == "" { break; }
        rows := rows[1..];
      }
    }
  }

  lemma {:induction false} FindNoneDeletes(rows: seq<Entry>, pin: string)
    requires Find(rows, pin) == None
    ensures Delete(rows, pin) == rows
  {
    if rows != [] { FindNoneDeletes(rows[1..], pin); }
  }

  lemma {:induction false} DeleteKeeps(rows: seq<Entry>, pin: string)
    ensures forall e :: e in Delete(rows, pin) <==> e in rows && e.pin != pin
    ensures Distinct(rows) ==> Distinct(Delete(rows, pin))
  {
    if rows != [] {
      DeleteKeeps(rows[1..], pin);
      assert rows == [rows[0]] + rows[1..];
    }
  }

  lemma PushKeepsDistinct(rows: seq<Entry>, e: Entry)
    requires Distinct(rows)
    ensures Distinct(Delete(rows, e.pin) + [e])
  {
    DeleteKeeps(rows, e.pin);
    var kept := Delete(rows, e.pin);
    forall i | 0 <= i < |kept| ensures kept[i].pin != e.pin { assert kept[i] in kept; }
  }

  // ---- lookups

  function CleanPincode(input: string): Result<string> {
    var pin := Trim(input);
    if |pin| == 6 && Digits(pin) then Ok(pin) else Err(HttpError(400, "PINCODE_INVALID"))
  }

  function Serialize(row: PincodeRow): PincodeResponse {
    PincodeResponse(row.city, row.district, row.state, if row.localities.Some? then row.localities.value else [])
  }

  datatype Looked = Looked(rows: seq<Entry>, answer: Result<PincodeResponse>)

  /** One `lookup`: what it answers and the cache it leaves. */
  function Lookup(table: Table, maxEntries: int, rows: seq<Entry>, input: string): Looked {
    match CleanPincode(input)
    case Err(e) => Looked(rows, Err(e))
    case Ok(pin) =>
      match Find(rows, pin)
      case Some(value) => Looked(Touch(rows, pin), Ok(value))
      case None =>
        if pin !in table then Looked(rows, Err(HttpError(404, "PINCODE_NOT_FOUND")))
        else Looked(Store(rows, maxEntries, pin, Serialize(table[pin])), Ok(Serialize(table[pin])))
  }

  class AddressPincodeService {
    const table: Table
    const cache: BoundedPincodeCache

    constructor (table: Table, cache: BoundedPincodeCache)
      ensures this.table == table && this.cache == cache
    {
      this.table := table;
      this.cache := cache;
    }

    method LookupPin(input: string) returns (answer: Result<PincodeResponse>)
      requires cache.Valid()
      modifies cache
      ensures cache.Valid()
      ensures Looked(cache.rows, answer) == Lookup(table, cache.maxEntries, old(cache.rows), input)
    {
      var cleaned := CleanPincode(input);
      if cleaned.Err? { return Err(cleaned.error); }
      var pin := cleaned.value;
      var cached := cache.Get(pin);
      if cached.Some? { return Ok(cached.value); }
      if pin !in table { return Err(HttpError(404, "PINCODE_NOT_FOUND")); }
      var response := Serialize(table[pin]);
      cache.Set(pin, response);
      return Ok(response);
    }
  }

  /** The cache after a history of lookups, starting empty. */
  function Run(table: Table, maxEntries: int, history: seq<string>): seq<Entry> {
    if history == [] then []
    else
      var n := |history| - 1;
      Lookup(table, maxEntries, Run(table, maxEntries, history[..n]), history[n]).rows
  }

  // ---- what the cache should hold, said without a cache

  predicate IsPin(s: string) { |s| == 6 && forall i :: 0 <= i < 6 ==> '0' <= s[i] <= '9' }

  function FoundPins(table: Table, history: seq<string>): seq<string> {
    if history == [] then []
    else
      var n := |history| - 1;
      var before := FoundPins(table, history[..n]);
      var pin := Trim(history[n]);
      if IsPin(pin) && pin in table then before + [pin] else before
  }

  /** The distinct pins in the order of their last occurrence. */
  function Recency(pins: seq<string>): seq<string> {
    if pins == [] then []
    else if pins[0] in pins[1..] then Recency(pins[1..])
    else [pins[0]] + Recency(pins[1..])
  }

  /** The last `n` of a list; nothing when `n` is not positive. */
  function LastN(s: seq<string>, n: int): (r: seq<string>)
    ensures |r| == if n <= 0 then 0 else if |s| < n then |s| else n
  {
    if n <= 0 then [] else if |s| <= n then s else s[|s| - n..]
  }

  function Pins(rows: seq<Entry>): (r: seq<string>)
    ensures |r| == |rows|
    ensures forall i :: 0 <= i < |rows| ==> r[i] == rows[i].pin
  {
    seq(|rows|, i requires 0 <= i < |rows| => rows[i].pin)
  }

  function Without(pins: seq<string>, pin: string): seq<string> {
    if pins == [] then []
    else if pins[0] == pin then Without(pins[1..], pin)
    else [pins[0]] + Without(pins[1..], pin)
  }

  lemma {:induction false} WithoutAppend(a: seq<string>, b: seq<string>, pin: string)
    ensures Without(a + b, pin) == Without(a, pin) + Without(b, pin)
  {
    if a == [] {
      assert a + b == b;
    } else {
      WithoutAppend(a[1..], b, pin);
      assert (a + b)[1..] == a[1..] + b;
    }
  }

  lemma {:induction false} WithoutAbsent(a: seq<string>, pin: string)
    requires pin !in a
    ensures Without(a, pin) == a
  {
    if a != [] { WithoutAbsent(a[1..], pin); }
  }

  lemma {:induction false} RecencyMembers(pins: seq<string>)
    ensures forall p :: p in Recency(pins) <==> p in pins
    ensures forall i, j :: 0 <= i < j < |Recency(pins)| ==> Recency(pins)[i] != Recency(pins)[j]
  {
    if pins != [] {
      RecencyMembers(pins[1..]);
      assert pins == [pins[0]] + pins[1..];
    }
  }

  /** One more occurrence moves the pin to the young end. */
  lemma {:induction false} RecencyTouch(pins: seq<string>, pin: string)
    ensures Recency(pins + [pin]) == Without(Recency(pins), pin) + [pin]
  {
    if pins == [] {
      assert pins + [pin] == [pin];
    } else {
      var t := pins[1..];
      RecencyTouch(t, pin);
      assert (pins + [pin])[1..] == t + [pin];
      if pins[0] == pin && pin !in t {
        RecencyMembers(t);
        WithoutAbsent(Recency(t), pin);
      }
    }
  }

  /** Dropping a pin and pushing it again commutes with keeping only the last `n` pins. */
  lemma LastNTouch(s: seq<string>, pin: string, n: int)
    requires n > 0 && forall i, j :: 0 <= i < j < |s| ==> s[i] != s[j]
    ensures LastN(Without(s, pin) + [pin], n) == LastN(Without(LastN(s, n), pin) + [pin], n)
    ensures pin in LastN(s, n) ==> |Without(LastN(s, n), pin)| == |LastN(s, n)| - 1
  {
    var t := LastN(s, n);
    if |s| <= n {
      WithoutLength(t, pin);
    } else {
      DropAppend(s[..|s| - n], t, pin, n);
      assert s == s[..|s| - n] + t;
      WithoutLength(t, pin);
    }
  }

  lemma DropAppend(older: seq<string>, t: seq<string>, pin: string, n: int)
    requires n > 0 && |t| == n && forall i, j :: 0 <= i < j < |t| ==> t[i] != t[j]
    ensures LastN(Without(older + t, pin) + [pin], n) == LastN(Without(t, pin) + [pin], n)
  {
    WithoutAppend(older, t, pin);
    WithoutLength(t, pin);
    var a, b := Without(older, pin), Without(t, pin);
    assert a + b + [pin] == a + (b + [pin]);
    LastNAppend(a, b + [pin], n);
  }

  /** Of a list that ends in enough, only the end is kept. */
  lemma LastNAppend(a: seq<string>, b: seq<string>, n: int)
    requires n > 0 && |b| >= n
    ensures LastN(a + b, n) == LastN(b, n)
  {
    assert (a + b)[|a| + |b| - n..] == b[|b| - n..];
  }

  lemma {:induction false} WithoutLength(s: seq<string>, pin: string)
    requires forall i, j :: 0 <= i < j < |s| ==> s[i] != s[j]
    ensures |Without(s, pin)| == if pin in s then |s| - 1 else |s|
  {
    if s != [] {
      WithoutLength(s[1..], pin);
      assert s == [s[0]] + s[1..];
    }
  }

  lemma {:induction false} PinsDelete(rows: seq<Entry>, pin: string)
    ensures Pins(Delete(rows, pin)) == Without(Pins(rows), pin)
  {
    if rows == [] {
      assert Pins(rows) == [];
    } else {
      PinsDelete(rows[1..], pin);
      assert Pins(rows)[1..] == Pins(rows[1..]);
    }
  }

  lemma {:induction false} PinsEvict(rows: seq<Entry>, maxEntries: int)
    requires forall i :: 0 <= i < |rows| ==> rows[i].pin != ""
    ensures Pins(Evict(rows, maxEntries)) == LastN(Pins(rows), maxEntries)
  {
    if |rows| > maxEntries && rows != [] {
      PinsEvict(rows[1..], maxEntries);
      assert Pins(rows)[1..] == Pins(rows[1..]);
    }
  }

  lemma {:induction false} FindIsPresent(rows: seq<Entry>, pin: string)
    ensures Find(rows, pin) == None <==> pin !in Pins(rows)
    ensures Find(rows, pin).Some? ==> Entry(pin, Find(rows, pin).value) in rows
  {
    if rows != [] {
      FindIsPresent(rows[1..], pin);
      assert Pins(rows)[1..] == Pins(rows[1..]);
      assert Pins(rows) == [rows[0].pin] + Pins(rows[1..]);
    }
  }

  lemma {:induction false} EvictIsSuffix(rows: seq<Entry>, maxEntries: int)
    ensures forall e :: e in Evict(rows, maxEntries) ==> e in rows
  {
    if |rows| > maxEntries && rows != [] { EvictIsSuffix(rows[1..], maxEntries); }
  }

  /** Every cached value is the table's own row, under a pin the table holds. */
  ghost predicate Faithful(table: Table, rows: seq<Entry>) {
    forall e :: e in rows ==> e.pin in table && |e.pin| == 6 && e.value == Serialize(table[e.pin])
  }

  lemma LookupStaysFaithful(table: Table, maxEntries: int, rows: seq<Entry>, input: string)
    requires Faithful(table, rows)
    ensures Faithful(table, Lookup(table, maxEntries, rows, input).rows)
  {
    var cleaned := CleanPincode(input);
    if cleaned.Ok? {
      var pin := cleaned.value;
      DeleteKeeps(rows, pin);
      FindIsPresent(rows, pin);
      if pin in table {
        EvictIsSuffix(Delete(rows, pin) + [Entry(pin, Serialize(table[pin]))], maxEntries);
      }
    }
  }

  lemma {:induction false} RunIsFaithful(table: Table, maxEntries: int, history: seq<string>)
    ensures Faithful(table, Run(table, maxEntries, history))
  {
    if history != [] {
      var n := |history| - 1;
      RunIsFaithful(table, maxEntries, history[..n]);
      LookupStaysFaithful(table, maxEntries, Run(table, maxEntries, history[..n]), history[n]);
    }
  }

  /** What a caller should see: the table, with no cache. */
  predicate TableAnswers(table: Table, input: string, answer: Result<PincodeResponse>) {
    var pin := Trim(input);
    if !IsPin(pin) then answer == Err(HttpError(400, "PINCODE_INVALID"))
    else if pin !in table then answer == Err(HttpError(404, "PINCODE_NOT_FOUND"))
    else
      && answer.Ok?
      && answer.value.city == table[pin].city && answer.value.district == table[pin].district
      && answer.value.state == table[pin].state
      && (table[pin].localities == Some(answer.value.localities)
          || (table[pin].localities.None? && answer.value.localities == []))
  }

  /** After any history the answer is the table's. */
  lemma CacheIsTransparent(table: Table, maxEntries: int, history: seq<string>, input: string)
    ensures TableAnswers(table, input, Lookup(table, maxEntries, Run(table, maxEntries, history), input).answer)
  {
    RunIsFaithful(table, maxEntries, history);
    var cleaned := CleanPincode(input);
    if cleaned.Ok? {
      FindIsPresent(Run(table, maxEntries, history), cleaned.value);
    }
  }

  /** The `k` oldest entries have pins, and without any of them there are still too many. */
  predicate TooMany(rows: seq<Entry>, maxEntries: int, k: nat) {
    k <= |rows| && forall i :: 0 <= i < k ==> rows[i].pin != "" && |rows| - i > maxEntries
  }

  lemma OneMoreTooMany(rows: seq<Entry>, maxEntries: int, k: nat)
    requires rows != [] && rows[0].pin != "" && |rows| > maxEntries && TooMany(rows[1..], maxEntries, k)
    ensures TooMany(rows, maxEntries, k + 1)
  {
    var younger := rows[1..];
    forall i | 0 <= i < k + 1 ensures rows[i].pin != "" && |rows| - i > maxEntries {
      if i > 0 { assert rows[i] == younger[i - 1] && |younger| - (i - 1) > maxEntries; }
    }
  }

  /** Eviction takes entries from the old end until the rest fits or an entry without a pin stands there. */
  lemma {:induction false} EvictionStops(rows: seq<Entry>, maxEntries: int) returns (k: nat)
    ensures TooMany(rows, maxEntries, k) && Evict(rows, maxEntries) == rows[k..]
    ensures k < |rows| ==> |rows| - k <= maxEntries || rows[k].pin == ""
  {
    if |rows| > maxEntries && rows != [] && rows[0].pin != "" {
      var younger := rows[1..];
      var rest := EvictionStops(younger, maxEntries);
      k := rest + 1;
      OneMoreTooMany(rows, maxEntries, rest);
      assert younger[rest..] == rows[k..];
      assert rest < |younger| ==> younger[rest] == rows[k];
    } else {
      k := 0;
    }
  }

  /** The cache holds, oldest first, the last `maxEntries` distinct pins that were found. */
  lemma {:induction false} CacheIsRecencySuffix(table: Table, maxEntries: int, history: seq<string>)
    ensures Pins(Run(table, maxEntries, history)) == LastN(Recency(FoundPins(table, history)), maxEntries)
  {
    if history == [] {
      assert Pins([]) == [];
    } else {
      var n := |history| - 1;
      var before, input := history[..n], history[n];
      var rows := Run(table, maxEntries, before);
      CacheIsRecencySuffix(table, maxEntries, before);
      var cleaned := CleanPincode(input);
      if cleaned.Ok? {
        StepIsRecencySuffix(table, maxEntries, before, rows, cleaned.value);
      }
    }
  }

  /** Moving a pin to the end of the last `maxEntries` pins keeps them the last `maxEntries` pins. */
  lemma TouchedPins(rows: seq<Entry>, pins: seq<string>, maxEntries: int, pin: string)
    requires maxEntries > 0 && Pins(rows) == LastN(Recency(pins), maxEntries)
    ensures LastN(Without(Pins(rows), pin) + [pin], maxEntries) == LastN(Recency(pins + [pin]), maxEntries)
    ensures pin in Pins(rows) ==> |Without(Pins(rows), pin)| == |rows| - 1
  {
    RecencyTouch(pins, pin);
    RecencyMembers(pins);
    LastNTouch(Recency(pins), pin, maxEntries);
  }

  lemma PushedPins(rows: seq<Entry>, e: Entry)
    ensures Pins(Delete(rows, e.pin) + [e]) == Without(Pins(rows), e.pin) + [e.pin]
  {
    PinsDelete(rows, e.pin);
  }

  lemma StepIsRecencySuffix(table: Table, maxEntries: int, before: seq<string>, rows: seq<Entry>, pin: string)
    requires rows == Run(table, maxEntries, before)
    requires |pin| == 6
    requires Pins(rows) == LastN(Recency(FoundPins(table, before)), maxEntries)
    ensures Find(rows, pin).Some? ==>
      pin in table && Pins(Touch(rows, pin)) == LastN(Recency(FoundPins(table, before) + [pin]), maxEntries)
    ensures Find(rows, pin).None? && pin in table ==>
      Pins(Store(rows, maxEntries, pin, Serialize(table[pin]))) ==
      LastN(Recency(FoundPins(table, before) + [pin]), maxEntries)
  {
    RunIsFaithful(table, maxEntries, before);
    FindIsPresent(rows, pin);
    if maxEntries > 0 { TouchedPins(rows, FoundPins(table, before), maxEntries, pin); }
    if Find(rows, pin).Some? {
      PushedPins(rows, Entry(pin, Find(rows, pin).value));
    } else if pin in table {
      var e := Entry(pin, Serialize(table[pin]));
      PushedPins(rows, e);
      DeleteKeeps(rows, pin);
      PinsEvict(Delete(rows, pin) + [e], maxEntries);
    }
  }

  lemma LastNNested(s: seq<string>, small: int, large: int)
    requires small <= large
    ensures LastN(s, small) == LastN(LastN(s, large), small)
  {
  }

  /** A larger cache run on the same lookups always contains the smaller one, as its youngest part. */
  lemma LargerCacheContainsSmaller(table: Table, small: int, large: int, history: seq<string>)
    requires small <= large
    ensures Pins(Run(table, small, history)) == LastN(Pins(Run(table, large, history)), small)
    ensures forall e :: e in Run(table, small, history) ==> e in Run(table, large, history)
  {
    CacheIsRecencySuffix(table, small, history);
    CacheIsRecencySuffix(table, large, history);
    LastNNested(Recency(FoundPins(table, history)), small, large);
    RunIsFaithful(table, small, history);
    RunIsFaithful(table, large, history);
    FaithfulSuffix(table, Run(table, small, history), Run(table, large, history), small);
  }

  lemma FaithfulSuffix(table: Table, s: seq<Entry>, l: seq<Entry>, n: int)
    requires Faithful(table, s) && Faithful(table, l) && Pins(s) == LastN(Pins(l), n)
    ensures forall e :: e in s ==> e in l
  {
    forall i | 0 <= i < |s| ensures s[i] in l {
      var k := |l| - |s| + i;
      assert Pins(s)[i] == Pins(l)[k];
      assert l[k] in l && s[i] in s;
    }
  }
}
