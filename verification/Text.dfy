/** The few JavaScript string operations that decide keys in the model. */
module Text {

  /** What `trim` removes and `\s` matches. */
  predicate IsSpace(c: char) {
    || '\t' <= c <= '\r'
    || c == ' '
    || c == '\U{A0}'
    || c == '\U{1680}'
    || '\U{2000}' <= c <= '\U{200A}'
    || c in {'\U{2028}', '\U{2029}', '\U{202F}', '\U{205F}', '\U{3000}', '\U{FEFF}'}
  }

  predicate IsDigit(c: char) { '0' <= c <= '9' }

  predicate Digits(s: string) { forall i :: 0 <= i < |s| ==> IsDigit(s[i]) }

  function TrimStart(s: string): (r: string)
    ensures |r| <= |s|
    ensures r == "" || !IsSpace(r[0])
  {
    if s != "" && IsSpace(s[0]) then TrimStart(s[1..]) else s
  }

  function TrimEnd(s: string): (r: string)
    ensures r <= s
    ensures r == "" || !IsSpace(r[|r| - 1])
  {
    if s != "" && IsSpace(s[|s| - 1]) then TrimEnd(s[..|s| - 1]) else s
  }

  function Trim(s: string): (r: string)
    ensures r == "" || (!IsSpace(r[0]) && !IsSpace(r[|r| - 1]))
  {
    TrimEnd(TrimStart(s))
  }

  /** `Trim` takes blanks off both ends, and nothing else. */
  lemma {:induction false} TrimCutsBlanks(s: string) returns (a: string, b: string)
    ensures s == a + Trim(s) + b
    ensures (forall c :: c in a ==> IsSpace(c)) && (forall c :: c in b ==> IsSpace(c))
  {
    a := TrimStartCuts(s);
    b := TrimEndCuts(TrimStart(s));
    assert s == a + (Trim(s) + b);
  }

  lemma {:induction false} TrimStartCuts(s: string) returns (a: string)
    ensures s == a + TrimStart(s) && forall c :: c in a ==> IsSpace(c)
  {
    if s != "" && IsSpace(s[0]) {
      var rest := TrimStartCuts(s[1..]);
      a := [s[0]] + rest;
      assert s == [s[0]] + (rest + TrimStart(s));
    } else {
      a := "";
    }
  }

  lemma {:induction false} TrimEndCuts(s: string) returns (b: string)
    ensures s == TrimEnd(s) + b && forall c :: c in b ==> IsSpace(c)
  {
    if s != "" && IsSpace(s[|s| - 1]) {
      var rest := TrimEndCuts(s[..|s| - 1]);
      b := rest + [s[|s| - 1]];
      assert s == s[..|s| - 1] + [s[|s| - 1]] == TrimEnd(s) + rest + [s[|s| - 1]];
    } else {
      b := "";
    }
  }

  /** The value of a string of decimal digits. */
  function ParseDigits(s: string): nat
    requires Digits(s)
  {
    if s == "" then 0 else 10 * ParseDigits(s[..|s| - 1]) + (s[|s| - 1] - '0') as nat
  }

  /** `toLowerCase` and `toUpperCase` on ASCII letters; other characters stay. */
  function Lower(c: char): char { if 'A' <= c <= 'Z' then c - 'A' + 'a' else c }

  function Upper(c: char): char { if 'a' <= c <= 'z' then c - 'a' + 'A' else c }

  function ToUpper(s: string): (r: string)
    ensures |r| == |s|
  {
    seq(|s|, i requires 0 <= i < |s| => Upper(s[i]))
  }

  function ToLower(s: string): (r: string)
    ensures |r| == |s|
  {
    seq(|s|, i requires 0 <= i < |s| => Lower(s[i]))
  }

  // ---- joining

  predicate Free(c: char, s: string) { c !in s }

  function Join(parts: seq<string>, c: char): string {
    if parts == [] then ""
    else if |parts| == 1 then parts[0]
    else parts[0] + [c] + Join(parts[1..], c)
  }

  /** A separator that no part contains ends the first part. */
  lemma FirstPart(a: string, x: string, b: string, y: string, c: char)
    requires Free(c, a) && Free(c, b)
    ensures a + [c] + x == b + [c] + y <==> a == b && x == y
  {
    var s, t := a + [c] + x, b + [c] + y;
    assert s[|a|] == c && t[|b|] == c;
    assert |a| < |b| ==> t[|a|] == b[|a|];
    assert |b| < |a| ==> s[|b|] == a[|b|];
    if s == t {
      assert a == s[..|a|] && b == t[..|b|];
      assert x == s[|a| + 1..] && y == t[|b| + 1..];
    }
  }
}
