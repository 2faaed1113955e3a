/** Cursor paging of orders and audit rows (`checkout-admin.service.ts`, `listOrders` and `listAudit`). */
module CursorPaging {
  import opened Base
  import opened Text

  const DEFAULT_LIMIT: nat := 50
  const MAX_LIMIT: nat := 100

  /** `parseLimit`: absent or empty means the default, otherwise decimal digits naming 1 to 100. */
  function ParseLimit(value: Option<string>): (r: Result<nat>)
    ensures r.Ok? ==> 1 <= r.value <= 100
    ensures r.Ok? <==>
      value.None? || value.value == "" || (Digits(value.value) && 1 <= ParseDigits(value.value) <= 100)
    ensures r.Ok? ==> r.value == if value.None? || value.value == "" then 50 else ParseDigits(value.value)
    ensures r.Err? ==> r.error == HttpError(400, "CHECKOUT_LIMIT_INVALID")
  {
    if value.None? || value.value == "" then Ok(DEFAULT_LIMIT)
    else if !Digits(value.value) then Err(HttpError(400, "CHECKOUT_LIMIT_INVALID"))
    else
      var parsed := ParseDigits(value.value);
      if parsed < 1 || parsed > MAX_LIMIT then Err(HttpError(400, "CHECKOUT_LIMIT_INVALID")) else Ok(parsed)
  }

  datatype Row = Row(id: string, createdAt: int)

  predicate DistinctIds(rows: seq<Row>) {
    forall i, j :: 0 <= i < j < |rows| ==> rows[i].id != rows[j].id
  }

  /** `rows` is an answer of `ORDER BY created_at DESC` over the matching rows; ties may come in any order. */
  ghost predicate Ordering(matching: set<Row>, rows: seq<Row>) {
    && (forall i, j :: 0 <= i < j < |rows| ==> rows[i].createdAt >= rows[j].createdAt)
    && DistinctIds(rows)
    && forall r :: r in rows <==> r in matching
  }

  /** The rows from just past the cursor on. An unknown cursor id selects nothing. */
  function After(rows: seq<Row>, cursor: string): seq<Row> {
    if rows == [] then [] else if rows[0].id == cursor then rows[1..] else After(rows[1..], cursor)
  }

  function Take(rows: seq<Row>, n: nat): (r: seq<Row>)
    ensures |r| == Min(|rows|, n)
    ensures forall i :: 0 <= i < |r| ==> r[i] == rows[i]
  {
    if |rows| <= n then rows else rows[..n]
  }

  datatype Page = Page(rows: seq<Row>, nextCursor: Option<string>)

  /** One request: fetch one row more than asked for, show the rest, and name the last shown row if there is more. */
  function ListPage(ordered: seq<Row>, limit: nat, cursor: Option<string>): Page
    requires limit >= 1
  {
    var fetched := Take(if cursor.Some? then After(ordered, cursor.value) else ordered, limit + 1);
    var page := Take(fetched, limit);
    Page(page, if |fetched| > limit then Some(page[|page| - 1].id) else None)
  }

  /** What a client has seen, and the cursor it would send next; `done` once the cursor was null. */
  datatype Client = Client(seen: seq<Row>, cursor: Option<string>, done: bool)

  /** The client's next request; none after a null cursor. */
  function Ask(c: Client, ordered: seq<Row>, limit: nat): Client
    requires limit >= 1
  {
    if c.done then c
    else
      var page := ListPage(ordered, limit, c.cursor);
      Client(c.seen + page.rows, page.nextCursor, page.nextCursor.None?)
  }

  /** A client following `nextCursor` for `n` requests. The k-th request is answered in the order `orders(k)`
      and asks for `limits(k)` rows. */
  function Follow(orders: nat -> seq<Row>, limits: nat -> nat, n: nat): Client
    requires forall k :: limits(k) >= 1
  {
    if n == 0 then Client([], None, false)
    else Ask(Follow(orders, limits, n - 1), orders(n - 1), limits(n - 1))
  }

  // ---- one order for all requests

  lemma {:induction false} AfterAt(rows: seq<Row>, i: nat)
    requires i < |rows| && DistinctIds(rows)
    ensures After(rows, rows[i].id) == rows[i + 1..]
  {
    if i > 0 {
      AfterAt(rows[1..], i - 1);
    }
  }

  /** Where a client stands that has seen `k` rows of `rows`. */
  ghost predicate At(c: Client, rows: seq<Row>, k: nat) {
    && k <= |rows|
    && c.seen == rows[..k]
    && if c.done then k == |rows|
       else if c.cursor.Some? then 0 < k < |rows| && c.cursor.value == rows[k - 1].id
       else k == 0
  }

  /** One page shows exactly the rows from `k` up to the limit, and names the last if rows remain. */
  lemma PageShowsNext(rows: seq<Row>, k: nat, cursor: Option<string>, limit: nat)
    requires DistinctIds(rows) && limit >= 1 && k <= |rows|
    requires if cursor.Some? then 0 < k && cursor.value == rows[k - 1].id else k == 0
    ensures var j := Min(|rows|, k + limit);
      ListPage(rows, limit, cursor) == Page(rows[k..j], if j < |rows| then Some(rows[j - 1].id) else None)
  {
    if cursor.Some? { AfterAt(rows, k - 1); }
    var rest := rows[k..];
    var j := Min(|rows|, k + limit);
    assert (if cursor.Some? then After(rows, cursor.value) else rows) == rest;
    var fetched := Take(rest, limit + 1);
    assert Take(fetched, limit) == rows[k..j];
  }

  lemma SlicesJoin(rows: seq<Row>, k: nat, j: nat)
    requires k <= j <= |rows|
    ensures rows[..k] + rows[k..j] == rows[..j]
  {
  }

  lemma AskAdvances(c: Client, rows: seq<Row>, k: nat, limit: nat)
    requires DistinctIds(rows) && limit >= 1 && At(c, rows, k)
    ensures At(Ask(c, rows, limit), rows, if c.done then k else Min(|rows|, k + limit))
  {
    if !c.done {
      var j := Min(|rows|, k + limit);
      PageShowsNext(rows, k, c.cursor, limit);
      SlicesJoin(rows, k, j);
      assert Ask(c, rows, limit).seen == rows[..j];
    }
  }

  /** Each request shows the next rows, in order, or finds that there are none left. */
  lemma {:induction false} FollowInOrder(orders: nat -> seq<Row>, limits: nat -> nat, rows: seq<Row>, n: nat)
    returns (k: nat)
    requires forall i :: limits(i) >= 1
    requires DistinctIds(rows) && forall i :: orders(i) == rows
    ensures At(Follow(orders, limits, n), rows, k)
    ensures !Follow(orders, limits, n).done ==> k >= n && (n > 0 ==> k > 0)
    ensures !Follow(orders, limits, n).done && n > 0 ==> Follow(orders, limits, n).cursor.Some?
  {
    if n == 0 {
      k := 0;
    } else {
      k := FollowInOrder(orders, limits, rows, n - 1);
      var before := Follow(orders, limits, n - 1);
      AskAdvances(before, rows, k, limits(n - 1));
      k := if before.done then k else Min(|rows|, k + limits(n - 1));
    }
  }

  lemma {:induction false} OrderingIsUnique(matching: set<Row>, a: seq<Row>, b: seq<Row>)
    requires Ordering(matching, a) && Ordering(matching, b)
    requires forall r, q :: r in matching && q in matching && r.createdAt == q.createdAt ==> r == q
    ensures a == b
    decreases |a|
  {
    assert a != [] ==> a[0] in matching && a[0] in b;
    assert b != [] ==> b[0] in matching && b[0] in a;
    if a != [] {
      assert a[0] == b[0];
      var rest := matching - {a[0]};
      forall r ensures r in a[1..] <==> r in rest { assert r in a <==> r == a[0] || r in a[1..]; }
      forall r ensures r in b[1..] <==> r in rest { assert r in b <==> r == b[0] || r in b[1..]; }
      OrderingIsUnique(rest, a[1..], b[1..]);
    }
  }

  ghost predicate NoTies(matching: set<Row>) {
    forall r, q :: r in matching && q in matching && r.createdAt == q.createdAt ==> r == q
  }

  ghost predicate Answers(orders: nat -> seq<Row>, matching: set<Row>) {
    forall k :: Ordering(matching, orders(k))
  }

  ghost predicate Complete(orders: nat -> seq<Row>, limits: nat -> nat, matching: set<Row>)
    requires forall k :: limits(k) >= 1
  {
    exists n :: Follow(orders, limits, n).done && Ordering(matching, Follow(orders, limits, n).seen)
  }

  /** Over rows with distinct creation times, following the cursor shows every row once, newest first, and ends
      after at most one request more than there are rows. */
  lemma FollowIsComplete(orders: nat -> seq<Row>, limits: nat -> nat, matching: set<Row>)
    requires forall k :: limits(k) >= 1
    requires Answers(orders, matching) && NoTies(matching)
    ensures Follow(orders, limits, |orders(0)| + 1).done
    ensures Follow(orders, limits, |orders(0)| + 1).seen == orders(0)
    ensures Complete(orders, limits, matching)
  {
    var rows := orders(0);
    forall k ensures orders(k) == rows { OrderingIsUnique(matching, orders(k), rows); }
    var k := FollowInOrder(orders, limits, rows, |rows| + 1);
    assert rows[..|rows|] == rows;
  }

  // ---- ties

  /** An order of the rows that differs from `rows` in the two neighbours at `i`. */
  function Swapped(rows: seq<Row>, i: nat): (r: seq<Row>)
    requires i + 1 < |rows|
    ensures |r| == |rows|
  {
    rows[i := rows[i + 1]][i + 1 := rows[i]]
  }

  lemma SwappedIsOrdering(matching: set<Row>, rows: seq<Row>, i: nat)
    requires i + 1 < |rows| && Ordering(matching, rows) && rows[i].createdAt == rows[i + 1].createdAt
    ensures Ordering(matching, Swapped(rows, i))
  {
    var s := Swapped(rows, i);
    forall r ensures r in s <==> r in matching {
      if r in s { var k :| 0 <= k < |s| && s[k] == r; assert r in rows; }
      if r in rows {
        var k :| 0 <= k < |rows| && rows[k] == r;
        assert s[if k == i then i + 1 else if k == i + 1 then i else k] == r;
      }
    }
  }

  /** Answers that change the order of a tied pair just after its first row was shown. */
  function Flipping(rows: seq<Row>, i: nat): nat -> seq<Row>
    requires i + 1 < |rows|
  {
    (k: nat) => if k <= i then rows else Swapped(rows, i)
  }

  function One(): nat -> nat { (k: nat) => 1 }

  lemma {:induction false} FlippingPrefix(rows: seq<Row>, i: nat, n: nat)
    requires i + 1 < |rows| && DistinctIds(rows) && n <= i + 1
    ensures At(Follow(Flipping(rows, i), One(), n), rows, n)
    ensures !Follow(Flipping(rows, i), One(), n).done
  {
    if n > 0 {
      FlippingPrefix(rows, i, n - 1);
      AskAdvances(Follow(Flipping(rows, i), One(), n - 1), rows, n - 1, 1);
    }
  }

  /** The client is past the tied pair and never saw its second row. */
  ghost predicate Past(c: Client, rows: seq<Row>, i: nat)
    requires i + 1 < |rows|
  {
    && rows[i + 1] !in c.seen
    && (c.done || (c.cursor.Some? && exists k :: i + 2 <= k < |rows| && c.cursor.value == rows[k].id))
  }

  lemma FlipSkips(c: Client, rows: seq<Row>, i: nat)
    requires i + 1 < |rows| && DistinctIds(rows)
    requires (At(c, rows, i + 1) && !c.done) || Past(c, rows, i)
    ensures Past(Ask(c, Swapped(rows, i), 1), rows, i)
  {
    if !c.done {
      var s := Swapped(rows, i);
      var k := i + 1;
      if At(c, rows, i + 1) {
        assert s[i + 1] == rows[i];
      } else {
        k :| i + 2 <= k < |rows| && c.cursor.value == rows[k].id;
      }
      AfterAt(s, k);
      assert s[k + 1..] == rows[k + 1..];
      assert forall m :: k < m < |rows| ==> rows[m] != rows[i + 1];
    }
  }

  /** From then on the client never sees the second row of the pair. */
  lemma {:induction false} FlippingSkips(rows: seq<Row>, i: nat, n: nat)
    requires i + 1 < |rows| && DistinctIds(rows) && n > i + 1
    ensures Past(Follow(Flipping(rows, i), One(), n), rows, i)
  {
    if n == i + 2 {
      FlippingPrefix(rows, i, i + 1);
    } else {
      FlippingSkips(rows, i, n - 1);
    }
    FlipSkips(Follow(Flipping(rows, i), One(), n - 1), rows, i);
  }

  lemma SortedTie(matching: set<Row>, rows: seq<Row>) returns (i: nat)
    requires Ordering(matching, rows) && !NoTies(matching)
    ensures i + 1 < |rows| && rows[i].createdAt == rows[i + 1].createdAt
  {
    var r, q :| r in matching && q in matching && r.createdAt == q.createdAt && r != q;
    var a :| 0 <= a < |rows| && rows[a] == r;
    var b :| 0 <= b < |rows| && rows[b] == q;
    i := if a < b then a else b;
  }

  /** With a tie, a database that answers two requests in different orders makes a client lose a row. */
  lemma TiesLoseRows(matching: set<Row>, rows: seq<Row>) returns (orders: nat -> seq<Row>, limits: nat -> nat)
    requires Ordering(matching, rows) && !NoTies(matching)
    ensures forall k :: 1 <= limits(k) <= MAX_LIMIT
    ensures Answers(orders, matching) && !Complete(orders, limits, matching)
  {
    var i := SortedTie(matching, rows);
    orders, limits := Flipping(rows, i), One();
    SwappedIsOrdering(matching, rows, i);
    forall n ensures !(Follow(orders, limits, n).done && Ordering(matching, Follow(orders, limits, n).seen)) {
      if n <= i + 1 {
        FlippingPrefix(rows, i, n);
      } else {
        FlippingSkips(rows, i, n);
        assert rows[i + 1] in rows;
      }
    }
  }

  /** Paging is complete, whatever order each request finds tied rows in, exactly when no two matching rows tie. */
  lemma PagingCompleteIffNoTies(matching: set<Row>, rows: seq<Row>)
    requires Ordering(matching, rows)
    ensures NoTies(matching) <==>
      forall orders: nat -> seq<Row>, limits: nat -> nat
        | (forall k: nat :: 1 <= limits(k) <= MAX_LIMIT) && Answers(orders, matching) ::
        Complete(orders, limits, matching)
  {
    if NoTies(matching) {
      forall orders: nat -> seq<Row>, limits: nat -> nat
        | (forall k: nat :: 1 <= limits(k) <= MAX_LIMIT) && Answers(orders, matching)
        ensures Complete(orders, limits, matching)
      {
        FollowIsComplete(orders, limits, matching);
      }
    } else {
      var orders, limits := TiesLoseRows(matching, rows);
    }
  }
}
