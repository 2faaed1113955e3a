/** The canonical form behind `checkoutRequestHash`: object keys sorted at every depth.

    `localeCompare` is a total preorder on strings. Strings are countable, so every such order is the
    order of some weight in the reals; a `Collation` is that weight, and two keys tie when their
    weights are equal, as canonically equivalent Unicode strings do. */
module StableJson {
  import opened JsonValues

  type Collation = string -> real

  function Keys(fields: seq<Field>): set<string> { set f | f in fields :: f.key }

  predicate DistinctKeys(fields: seq<Field>) {
    forall i, j :: 0 <= i < j < |fields| ==> fields[i].key != fields[j].key
  }

  predicate NoTies(w: Collation, fields: seq<Field>) {
    forall i, j :: 0 <= i < j < |fields| ==> w(fields[i].key) != w(fields[j].key)
  }

  predicate Sorted(w: Collation, fields: seq<Field>) {
    forall i, j :: 0 <= i < j < |fields| ==> w(fields[i].key) <= w(fields[j].key)
  }

  /** Every object, at every depth, has distinct keys. */
  predicate WellFormed(v: Json) {
    match v
    case Arr(items) => forall i :: 0 <= i < |items| ==> WellFormed(items[i])
    case Obj(fields) => DistinctKeys(fields) && forall i :: 0 <= i < |fields| ==> WellFormed(fields[i].value)
    case _ => true
  }

  /** No object, at any depth, has two keys that the collation cannot tell apart. */
  predicate TieFree(w: Collation, v: Json) {
    match v
    case Arr(items) => forall i :: 0 <= i < |items| ==> TieFree(w, items[i])
    case Obj(fields) => NoTies(w, fields) && forall i :: 0 <= i < |fields| ==> TieFree(w, fields[i].value)
    case _ => true
  }

  /** Equal up to the order of object keys at every depth. */
  predicate Same(a: Json, b: Json) {
    match (a, b)
    case (Arr(x), Arr(y)) =>
      |x| == |y| && forall i :: 0 <= i < |x| ==> Same(x[i], y[i])
    case (Obj(f), Obj(g)) =>
      && |f| == |g|
      && Keys(f) == Keys(g)
      && forall i, j :: 0 <= i < |f| && 0 <= j < |g| && f[i].key == g[j].key ==> Same(f[i].value, g[j].value)
    case _ => a == b
  }

  // ---- the stable sort of the entries of an object

  /** Where `f` goes in a sorted list: before the first entry that is not lighter. */
  function Slot(w: Collation, f: Field, s: seq<Field>): (k: nat)
    ensures k <= |s|
    ensures forall i :: 0 <= i < k ==> w(s[i].key) < w(f.key)
    ensures k < |s| ==> w(f.key) <= w(s[k].key)
  {
    if s == [] || w(f.key) <= w(s[0].key) then 0 else 1 + Slot(w, f, s[1..])
  }

  function Insert(w: Collation, f: Field, s: seq<Field>): seq<Field> {
    var k := Slot(w, f, s);
    s[..k] + [f] + s[k..]
  }

  /** The stable sort: the head of the list goes before the entries it ties with. */
  function Sort(w: Collation, fields: seq<Field>): (r: seq<Field>)
    ensures |r| == |fields|
    ensures forall f :: f in r <==> f in fields
  {
    if fields == [] then []
    else
      var r := Insert(w, fields[0], Sort(w, fields[1..]));
      assert fields == [fields[0]] + fields[1..];
      r
  }

  function Normalize(w: Collation, v: Json): Json {
    match v
    case Arr(items) =>
      Arr(seq(|items|, i requires 0 <= i < |items| => Normalize(w, items[i])))
    case Obj(fields) =>
      var s := Sort(w, fields);
      assert forall i :: 0 <= i < |s| ==> s[i] in fields;
      Obj(seq(|s|, i requires 0 <= i < |s| =>
        assert s[i] in fields;
        Field(s[i].key, Normalize(w, s[i].value))))
    case _ => v
  }

  // ---- the sort is sorted, a permutation, and stable

  lemma {:induction false} SortIsSorted(w: Collation, fields: seq<Field>)
    ensures Sorted(w, Sort(w, fields))
  {
    if fields != [] {
      SortIsSorted(w, fields[1..]);
    }
  }

  lemma InsertPermutes(w: Collation, f: Field, s: seq<Field>)
    ensures multiset(Insert(w, f, s)) == multiset(s) + multiset{f}
  {
    var k := Slot(w, f, s);
    assert multiset(s) == multiset(s[..k]) + multiset(s[k..]) by { assert s == s[..k] + s[k..]; }
  }

  lemma {:induction false} SortPermutes(w: Collation, fields: seq<Field>)
    ensures multiset(Sort(w, fields)) == multiset(fields)
  {
    if fields != [] {
      SortPermutes(w, fields[1..]);
      InsertPermutes(w, fields[0], Sort(w, fields[1..]));
      assert multiset(fields) == multiset{fields[0]} + multiset(fields[1..]) by {
        assert fields == [fields[0]] + fields[1..];
      }
    }
  }

  lemma InsertPositions(w: Collation, f: Field, s: seq<Field>, m: nat) returns (p: nat)
    requires m < |s|
    ensures p == if m < Slot(w, f, s) then m else m + 1
    ensures |Insert(w, f, s)| == |s| + 1
    ensures Insert(w, f, s)[p] == s[m]
    ensures Insert(w, f, s)[Slot(w, f, s)] == f
  {
    p := if m < Slot(w, f, s) then m else m + 1;
  }

  /** Stability: tied entries keep the order they came in. */
  lemma {:induction false} SortKeepsTies(w: Collation, fields: seq<Field>, i: nat, j: nat) returns (p: nat, q: nat)
    requires i < j < |fields| && w(fields[i].key) == w(fields[j].key)
    ensures p < q < |fields| && Sort(w, fields)[p] == fields[i] && Sort(w, fields)[q] == fields[j]
  {
    var rest := fields[1..];
    var s := Sort(w, rest);
    if i == 0 {
      assert rest[j - 1] == fields[j];
      assert fields[j] in s;
      var m :| 0 <= m < |s| && s[m] == fields[j];
      p := Slot(w, fields[0], s);
      q := InsertPositions(w, fields[0], s, m);
    } else {
      assert rest[i - 1] == fields[i] && rest[j - 1] == fields[j];
      var a, b := SortKeepsTies(w, rest, i - 1, j - 1);
      p := InsertPositions(w, fields[0], s, a);
      q := InsertPositions(w, fields[0], s, b);
    }
  }

  lemma {:induction false} SortedIsFixed(w: Collation, fields: seq<Field>)
    requires Sorted(w, fields)
    ensures Sort(w, fields) == fields
  {
    if fields != [] {
      SortedIsFixed(w, fields[1..]);
      assert Slot(w, fields[0], fields[1..]) == 0;
    }
  }

  // ---- normalised objects

  lemma DistinctByMultiset(f: seq<Field>, g: seq<Field>)
    requires multiset(f) == multiset(g) && DistinctKeys(f)
    ensures DistinctKeys(g)
  {
    forall i, j | 0 <= i < j < |g| ensures g[i].key != g[j].key {
      assert g[i] in multiset(f) && g[j] in multiset(f);
      if g[i].key == g[j].key {
        assert g[i] in f && g[j] in f;
        assert g[i] == g[j];
        TwiceInMultiset(g, i, j);
        OnceInMultiset(f, g[i]);
      }
    }
  }

  lemma TwiceInMultiset(g: seq<Field>, i: nat, j: nat)
    requires i < j < |g| && g[i] == g[j]
    ensures multiset(g)[g[i]] >= 2
  {
    assert g == g[..j] + [g[j]] + g[j + 1..];
    assert g[..j][i] == g[i];
    assert g[i] in multiset(g[..j]);
  }

  lemma OnceInMultiset(f: seq<Field>, x: Field)
    requires DistinctKeys(f) && x in f
    ensures multiset(f)[x] == 1
  {
    var i :| 0 <= i < |f| && f[i] == x;
    assert f == f[..i] + [f[i]] + f[i + 1..];
    assert x !in f[..i] && x !in f[i + 1..];
    assert x !in multiset(f[..i]) && x !in multiset(f[i + 1..]);
  }

  /** In a normalised object of distinct keys each key stands once, with its own value normalised. */
  lemma NormalizedValue(w: Collation, fields: seq<Field>, i: nat) returns (p: nat)
    requires DistinctKeys(fields) && i < |fields|
    ensures var n := Normalize(w, Obj(fields)).fields;
      && |n| == |fields|
      && p < |n|
      && n[p] == Field(fields[i].key, Normalize(w, fields[i].value))
      && DistinctKeys(n)
      && Keys(n) == Keys(fields)
  {
    var s := Sort(w, fields);
    SortPermutes(w, fields);
    DistinctByMultiset(fields, s);
    assert fields[i] in s;
    p :| 0 <= p < |s| && s[p] == fields[i];
    var n := Normalize(w, Obj(fields)).fields;
    assert forall k :: 0 <= k < |n| ==> n[k].key == s[k].key;
    SameKeys(n, s);
    assert Keys(s) == Keys(fields);
  }

  lemma SameKeys(f: seq<Field>, g: seq<Field>)
    requires |f| == |g| && forall k :: 0 <= k < |f| ==> f[k].key == g[k].key
    ensures Keys(f) == Keys(g)
  {
    forall k | k in Keys(f) ensures k in Keys(g) {
      var i :| 0 <= i < |f| && f[i].key == k;
      assert g[i] in g;
    }
    forall k | k in Keys(g) ensures k in Keys(f) {
      var i :| 0 <= i < |g| && g[i].key == k;
      assert f[i] in f;
    }
  }

  /** Objects with one normal form have the same keys, and the same normal form under each key. */
  lemma EqualNormalFields(w: Collation, f: seq<Field>, g: seq<Field>)
    requires DistinctKeys(f) && DistinctKeys(g)
    requires Normalize(w, Obj(f)) == Normalize(w, Obj(g))
    ensures |f| == |g| && Keys(f) == Keys(g)
    ensures forall i, j :: 0 <= i < |f| && 0 <= j < |g| && f[i].key == g[j].key ==>
      Normalize(w, f[i].value) == Normalize(w, g[j].value)
  {
    var n := Normalize(w, Obj(f)).fields;
    assert |n| == |f| == |g|;
    if f != [] {
      var _ := NormalizedValue(w, f, 0);
      var _ := NormalizedValue(w, g, 0);
    }
    forall i, j | 0 <= i < |f| && 0 <= j < |g| && f[i].key == g[j].key
      ensures Normalize(w, f[i].value) == Normalize(w, g[j].value)
    {
      var p := NormalizedValue(w, f, i);
      var q := NormalizedValue(w, g, j);
    }
  }

  /** One normal form means equal up to key order, ties or not. */
  lemma {:induction false} EqualFormsAreSame(w: Collation, a: Json, b: Json)
    requires WellFormed(a) && WellFormed(b) && Normalize(w, a) == Normalize(w, b)
    ensures Same(a, b)
    decreases a
  {
    match a {
      case Arr(x) =>
        var y := b.items;
        forall i | 0 <= i < |x| ensures Same(x[i], y[i]) {
          assert Normalize(w, x[i]) == Normalize(w, a).items[i] == Normalize(w, b).items[i];
          EqualFormsAreSame(w, x[i], y[i]);
        }
      case Obj(f) =>
        var g := b.fields;
        EqualNormalFields(w, f, g);
        forall i, j | 0 <= i < |f| && 0 <= j < |g| && f[i].key == g[j].key ensures Same(f[i].value, g[j].value) {
          EqualFormsAreSame(w, f[i].value, g[j].value);
        }
      case _ =>
    }
  }

  // ---- without ties the normal form is canonical

  predicate Ascending(w: Collation, ks: seq<string>) {
    forall i, j :: 0 <= i < j < |ks| ==> w(ks[i]) < w(ks[j])
  }

  lemma {:induction false} AscendingIsUnique(w: Collation, a: seq<string>, b: seq<string>)
    requires Ascending(w, a) && Ascending(w, b)
    requires forall k :: k in a <==> k in b
    ensures a == b
  {
    assert a != [] ==> a[0] in b;
    assert b != [] ==> b[0] in a;
    if a != [] {
      assert a[0] == b[0];
      forall k ensures k in a[1..] <==> k in b[1..] {
        if k in a[1..] { assert k in b && k != b[0]; }
        if k in b[1..] { assert k in a && k != a[0]; }
      }
      AscendingIsUnique(w, a[1..], b[1..]);
    }
  }

  function SortedKeys(w: Collation, f: seq<Field>): (ks: seq<string>)
    ensures |ks| == |f|
  {
    var s := Sort(w, f);
    seq(|s|, i requires 0 <= i < |s| => s[i].key)
  }

  lemma SortIsDistinct(w: Collation, f: seq<Field>)
    requires DistinctKeys(f)
    ensures DistinctKeys(Sort(w, f))
  {
    SortPermutes(w, f);
    DistinctByMultiset(f, Sort(w, f));
  }

  lemma SortedKeysAscend(w: Collation, f: seq<Field>)
    requires NoTies(w, f)
    ensures Ascending(w, SortedKeys(w, f))
  {
    var s := Sort(w, f);
    SortIsSorted(w, f);
    SortIsDistinct(w, f);
    forall i, j | 0 <= i < j < |s| ensures w(s[i].key) < w(s[j].key) {
      assert s[i] in f && s[j] in f;
      var a :| 0 <= a < |f| && f[a] == s[i];
      var b :| 0 <= b < |f| && f[b] == s[j];
      assert a != b;
    }
  }

  lemma SortedKeysAreKeys(w: Collation, f: seq<Field>)
    ensures forall k :: k in SortedKeys(w, f) <==> k in Keys(f)
  {
    var s, ks := Sort(w, f), SortedKeys(w, f);
    forall k ensures k in ks <==> k in Keys(f) {
      if k in ks {
        var i :| 0 <= i < |ks| && ks[i] == k;
        assert s[i] in f;
      }
      if k in Keys(f) {
        var x :| x in f && x.key == k;
        assert x in s;
        var i :| 0 <= i < |s| && s[i] == x;
        assert ks[i] == k;
      }
    }
  }

  lemma {:induction false} SameHaveEqualForms(w: Collation, a: Json, b: Json)
    requires TieFree(w, a) && TieFree(w, b) && Same(a, b)
    ensures Normalize(w, a) == Normalize(w, b)
    decreases a
  {
    match a {
      case Arr(x) =>
        var y := b.items;
        forall i | 0 <= i < |x| ensures Normalize(w, x[i]) == Normalize(w, y[i]) {
          SameHaveEqualForms(w, x[i], y[i]);
        }
        assert Normalize(w, a).items == Normalize(w, b).items;
      case Obj(f) =>
        var g := b.fields;
        var ks, ls := SortedKeys(w, f), SortedKeys(w, g);
        SortedKeysAscend(w, f);
        SortedKeysAscend(w, g);
        SortedKeysAreKeys(w, f);
        SortedKeysAreKeys(w, g);
        AscendingIsUnique(w, ks, ls);
        var s, t := Sort(w, f), Sort(w, g);
        forall p | 0 <= p < |s| ensures s[p].key == t[p].key && Normalize(w, s[p].value) == Normalize(w, t[p].value) {
          assert s[p] in f && t[p] in g;
          assert s[p].key == ks[p] == ls[p] == t[p].key;
          SameHaveEqualForms(w, s[p].value, t[p].value);
        }
        assert Normalize(w, a).fields == Normalize(w, b).fields;
      case _ =>
    }
  }

  lemma {:induction false} SameKeepsTieFree(w: Collation, a: Json, b: Json)
    requires TieFree(w, a) && WellFormed(b) && Same(a, b)
    ensures TieFree(w, b)
    decreases a
  {
    match a {
      case Arr(x) =>
        forall i | 0 <= i < |x| ensures TieFree(w, b.items[i]) { SameKeepsTieFree(w, x[i], b.items[i]); }
      case Obj(f) =>
        var g := b.fields;
        forall j | 0 <= j < |g| ensures exists i :: 0 <= i < |f| && f[i].key == g[j].key {
          assert g[j].key in Keys(f);
        }
        forall j | 0 <= j < |g| ensures TieFree(w, g[j].value) {
          var i :| 0 <= i < |f| && f[i].key == g[j].key;
          SameKeepsTieFree(w, f[i].value, g[j].value);
        }
        forall i, j | 0 <= i < j < |g| ensures w(g[i].key) != w(g[j].key) {
          var p :| 0 <= p < |f| && f[p].key == g[i].key;
          var q :| 0 <= q < |f| && f[q].key == g[j].key;
        }
      case _ =>
    }
  }

  /** For bodies without tied keys, the normal form decides equality up to key order. */
  lemma {:induction false} CanonicalForm(w: Collation, a: Json, b: Json)
    requires WellFormed(a) && WellFormed(b) && TieFree(w, a)
    ensures Normalize(w, a) == Normalize(w, b) <==> Same(a, b)
  {
    if Normalize(w, a) == Normalize(w, b) {
      EqualFormsAreSame(w, a, b);
    }
    if Same(a, b) {
      SameKeepsTieFree(w, a, b);
      SameHaveEqualForms(w, a, b);
    }
  }

  // ---- with ties it is not

  lemma {:induction false} SameIsReflexive(v: Json)
    requires WellFormed(v)
    ensures Same(v, v)
  {
    match v {
      case Arr(x) => forall i | 0 <= i < |x| ensures Same(x[i], x[i]) { SameIsReflexive(x[i]); }
      case Obj(f) =>
        forall i, j | 0 <= i < |f| && 0 <= j < |f| && f[i].key == f[j].key ensures Same(f[i].value, f[j].value) {
          assert i == j;
          SameIsReflexive(f[i].value);
        }
      case _ =>
    }
  }

  function Swap(f: seq<Field>, i: nat, j: nat): (g: seq<Field>)
    requires i < j < |f|
    ensures |g| == |f|
    ensures forall k :: 0 <= k < |f| ==> g[k] == f[if k == i then j else if k == j then i else k]
  {
    f[i := f[j]][j := f[i]]
  }

  lemma SwapIsSame(f: seq<Field>, i: nat, j: nat)
    requires WellFormed(Obj(f)) && i < j < |f|
    ensures WellFormed(Obj(Swap(f, i, j))) && Same(Obj(f), Obj(Swap(f, i, j)))
  {
    var g := Swap(f, i, j);
    forall k | k in Keys(f) ensures k in Keys(g) {
      var p :| 0 <= p < |f| && f[p].key == k;
      assert g[if p == i then j else if p == j then i else p] == f[p];
    }
    assert Keys(g) <= Keys(f);
    forall p, q | 0 <= p < |f| && 0 <= q < |g| && f[p].key == g[q].key ensures Same(f[p].value, g[q].value) {
      assert g[q] == f[p];
      SameIsReflexive(f[p].value);
    }
  }

  lemma TiedPairBreaksForm(w: Collation, f: seq<Field>, i: nat, j: nat)
    requires DistinctKeys(f) && i < j < |f| && w(f[i].key) == w(f[j].key)
    ensures Normalize(w, Obj(f)) != Normalize(w, Obj(Swap(f, i, j)))
  {
    var g := Swap(f, i, j);
    var a, b := SortKeepsTies(w, f, i, j);
    var c, d := SortKeepsTies(w, g, i, j);
    SortIsDistinct(w, f);
    var s, t := Sort(w, f), Sort(w, g);
    assert s[a].key == t[d].key && s[b].key == t[c].key;
    assert s[c].key != t[c].key || s[d].key != t[d].key;
    var n, m := Normalize(w, Obj(f)).fields, Normalize(w, Obj(g)).fields;
    assert n[c].key == s[c].key && n[d].key == s[d].key;
    assert m[c].key == t[c].key && m[d].key == t[d].key;
  }

  lemma ReplacedValueBreaksForm(w: Collation, f: seq<Field>, i: nat, t: Json)
    requires WellFormed(Obj(f)) && i < |f|
    requires WellFormed(t) && Same(f[i].value, t) && Normalize(w, f[i].value) != Normalize(w, t)
    ensures var u := Obj(f[i := Field(f[i].key, t)]);
      WellFormed(u) && Same(Obj(f), u) && Normalize(w, Obj(f)) != Normalize(w, u)
  {
    var g := f[i := Field(f[i].key, t)];
    SameKeys(f, g);
    forall p, q | 0 <= p < |f| && 0 <= q < |g| && f[p].key == g[q].key ensures Same(f[p].value, g[q].value) {
      assert p == q;
      if p != i { SameIsReflexive(f[p].value); }
    }
    assert f[i].key == g[i].key;
    if Normalize(w, Obj(f)) == Normalize(w, Obj(g)) {
      EqualNormalFields(w, f, g);
    }
  }

  /** A body with tied keys has a reordering whose normal form, and so whose hash, differs. */
  lemma {:induction false} TieBreaksCanonicalForm(w: Collation, v: Json) returns (u: Json)
    requires WellFormed(v) && !TieFree(w, v)
    ensures WellFormed(u) && Same(v, u) && Normalize(w, v) != Normalize(w, u)
    decreases v
  {
    match v {
      case Arr(x) =>
        var i :| 0 <= i < |x| && !TieFree(w, x[i]);
        var t := TieBreaksCanonicalForm(w, x[i]);
        u := Arr(x[i := t]);
        forall k | 0 <= k < |x| ensures Same(x[k], u.items[k]) {
          if k != i { SameIsReflexive(x[k]); }
        }
        assert Normalize(w, v).items[i] == Normalize(w, x[i]);
        assert Normalize(w, u).items[i] == Normalize(w, t);
      case Obj(f) =>
        if i, j :| 0 <= i < j < |f| && w(f[i].key) == w(f[j].key) {
          u := Obj(Swap(f, i, j));
          SwapIsSame(f, i, j);
          TiedPairBreaksForm(w, f, i, j);
        } else {
          var i :| 0 <= i < |f| && !TieFree(w, f[i].value);
          var t := TieBreaksCanonicalForm(w, f[i].value);
          u := Obj(f[i := Field(f[i].key, t)]);
          ReplacedValueBreaksForm(w, f, i, t);
        }
    }
  }

  /** The hash input is canonical for a body exactly when no two of its sibling keys tie. */
  lemma {:induction false} CanonicalIffTieFree(w: Collation, v: Json)
    requires WellFormed(v)
    ensures TieFree(w, v) <==> forall u :: WellFormed(u) && Same(v, u) ==> Normalize(w, v) == Normalize(w, u)
  {
    if TieFree(w, v) {
      forall u | WellFormed(u) && Same(v, u) ensures Normalize(w, v) == Normalize(w, u) {
        CanonicalForm(w, v, u);
      }
    } else {
      var u := TieBreaksCanonicalForm(w, v);
    }
  }

  /** Normalising twice is normalising once, ties or not. */
  lemma {:induction false} NormalizeIsIdempotent(w: Collation, v: Json)
    ensures Normalize(w, Normalize(w, v)) == Normalize(w, v)
    decreases v
  {
    match v {
      case Arr(x) =>
        var n := Normalize(w, v);
        forall i | 0 <= i < |x| ensures Normalize(w, n.items[i]) == n.items[i] { NormalizeIsIdempotent(w, x[i]); }
        assert Normalize(w, n).items == n.items;
      case Obj(f) =>
        var s := Sort(w, f);
        SortIsSorted(w, f);
        var n := Normalize(w, v).fields;
        assert forall k :: 0 <= k < |n| ==> n[k].key == s[k].key;
        SortedIsFixed(w, n);
        forall k | 0 <= k < |n| ensures Normalize(w, n[k].value) == n[k].value {
          assert s[k] in f;
          NormalizeIsIdempotent(w, s[k].value);
        }
        assert Normalize(w, Obj(n)).fields == n;
      case _ =>
    }
  }

  /** `checkoutRequestHash`: the digest of the serialised normal form. */
  function RequestHash(digest: Json -> string, w: Collation, body: Json): string { digest(Normalize(w, body)) }

  /** Under a collision-free digest two tie-free request bodies share a hash exactly when they are the same request. */
  lemma RequestHashesAgree(digest: Json -> string, w: Collation, a: Json, b: Json)
    requires forall x, y :: digest(x) == digest(y) ==> x == y
    requires WellFormed(a) && WellFormed(b) && TieFree(w, a)
    ensures RequestHash(digest, w, a) == RequestHash(digest, w, b) <==> Same(a, b)
  {
    CanonicalForm(w, a, b);
  }
}
