/** The normal form of a first address line (`normalizeCheckoutAddressLine1`): folded, and punctuation and blanks
    reduced to single spaces. `fold` stands for `normalize("NFKC").toLowerCase()` and may be any function on strings. */
module AddressLine {
  import opened Base
  import opened Text

  const MAX_LENGTH := 500

  predicate IsPunctuation(c: char) {
    c in {'.', ',', '/', '#', '!', '$', '%', '^', '&', '*', ';', ':', '{', '}', '=', '_', '`', '~', '(', ')', '[', ']',
          '\\', '|', '+', '-'}
  }

  predicate Separates(c: char) { IsPunctuation(c) || IsSpace(c) }

  function DropWhile(s: string, p: char -> bool): (r: string)
    ensures |r| <= |s|
    ensures r == "" || !p(r[0])
  {
    if s != "" && p(s[0]) then DropWhile(s[1..], p) else s
  }

  /** Replaces each maximal run of `p` by one space, as the two `replace` calls do. */
  function ReplaceRuns(s: string, p: char -> bool): string
    decreases |s|
  {
    if s == "" then ""
    else if p(s[0]) then " " + ReplaceRuns(DropWhile(s[1..], p), p)
    else [s[0]] + ReplaceRuns(s[1..], p)
  }

  function Squeeze(s: string): string { Trim(ReplaceRuns(ReplaceRuns(s, IsPunctuation), IsSpace)) }

  function NormalizeLine1(value: string, fold: string -> string): Result<string> {
    var text := Trim(value);
    if text == "" || |text| > MAX_LENGTH then Err(HttpError(400, "CHECKOUT_ADDRESS_LINE1_REQUIRED"))
    else Ok(Squeeze(fold(text)))
  }

  /** A line is accepted exactly when it has something besides blanks and, without the blanks around it, is not too
      long. */
  lemma LineAcceptedIff(value: string, fold: string -> string)
    ensures NormalizeLine1(value, fold).Ok? <==> 1 <= |Trim(value)| <= 500
    ensures NormalizeLine1(value, fold).Err? ==>
      NormalizeLine1(value, fold).error == HttpError(400, "CHECKOUT_ADDRESS_LINE1_REQUIRED")
  {
  }

  /** The punctuation that ends a word is that of ASCII, but for quotes, angle brackets, question mark and at sign. */
  lemma PunctuationIsAscii(c: char)
    ensures IsPunctuation(c) <==>
      && ('!' <= c <= '/' || ':' <= c <= '@' || '[' <= c <= '`' || '{' <= c <= '~')
      && c !in {'"', '\'', '<', '>', '?', '@'}
  {
  }

  // ---- what it keeps: the words

  function FirstWord(s: string): (w: string)
    ensures w <= s
    ensures forall i :: 0 <= i < |w| ==> !Separates(w[i])
    ensures |w| < |s| ==> Separates(s[|w|])
  {
    if s == "" || Separates(s[0]) then "" else [s[0]] + FirstWord(s[1..])
  }

  /** The maximal stretches without punctuation or blanks. */
  function Words(s: string): seq<string> {
    if s == "" then []
    else if Separates(s[0]) then Words(s[1..])
    else var w := FirstWord(s); [w] + Words(s[|w|..])
  }

  lemma {:induction false} WordsDrop(s: string, p: char -> bool)
    requires forall c :: p(c) ==> Separates(c)
    ensures Words(DropWhile(s, p)) == Words(s)
  {
    if s != "" && p(s[0]) { WordsDrop(s[1..], p); }
  }

  lemma {:induction false} ReplaceRunsKeepsWord(s: string, p: char -> bool)
    requires forall c :: p(c) ==> Separates(c)
    ensures FirstWord(ReplaceRuns(s, p)) == FirstWord(s)
    ensures ReplaceRuns(s, p)[|FirstWord(s)|..] == ReplaceRuns(s[|FirstWord(s)|..], p)
  {
    if s != "" && !Separates(s[0]) {
      ReplaceRunsKeepsWord(s[1..], p);
      var w := FirstWord(s[1..]);
      assert s[|FirstWord(s)|..] == s[1..][|w|..];
      assert ReplaceRuns(s, p)[1..] == ReplaceRuns(s[1..], p);
      assert ReplaceRuns(s, p)[|FirstWord(s)|..] == ReplaceRuns(s[1..], p)[|w|..];
    }
  }

  lemma {:induction false} ReplaceRunsKeepsWords(s: string, p: char -> bool)
    requires forall c :: p(c) ==> Separates(c)
    ensures Words(ReplaceRuns(s, p)) == Words(s)
    decreases |s|
  {
    if s != "" {
      var r := ReplaceRuns(s, p);
      if p(s[0]) {
        ReplaceRunsKeepsWords(DropWhile(s[1..], p), p);
        WordsDrop(s[1..], p);
        assert r[1..] == ReplaceRuns(DropWhile(s[1..], p), p);
      } else if Separates(s[0]) {
        ReplaceRunsKeepsWords(s[1..], p);
        assert r[1..] == ReplaceRuns(s[1..], p);
      } else {
        ReplaceRunsKeepsWord(s, p);
        ReplaceRunsKeepsWords(s[|FirstWord(s)|..], p);
        assert r != "" && !Separates(r[0]);
      }
    }
  }

  lemma {:induction false} FirstWordOfPrefix(s: string, c: char)
    requires Separates(c)
    ensures FirstWord(s + [c]) == FirstWord(s)
  {
    if s == "" {
      assert s + [c] == [c];
    } else if !Separates(s[0]) {
      assert (s + [c])[1..] == s[1..] + [c];
      FirstWordOfPrefix(s[1..], c);
    }
  }

  lemma {:induction false} WordsAppendBlank(s: string, c: char)
    requires Separates(c)
    ensures Words(s + [c]) == Words(s)
    decreases |s|
  {
    if s == "" {
      assert s + [c] == [c];
      assert [c][1..] == "";
    } else if Separates(s[0]) {
      assert (s + [c])[1..] == s[1..] + [c];
      WordsAppendBlank(s[1..], c);
    } else {
      var w := FirstWord(s);
      FirstWordOfPrefix(s, c);
      assert (s + [c])[|w|..] == s[|w|..] + [c];
      WordsAppendBlank(s[|w|..], c);
    }
  }

  lemma {:induction false} WordsTrimEnd(s: string)
    ensures Words(TrimEnd(s)) == Words(s)
  {
    if s != "" && IsSpace(s[|s| - 1]) {
      WordsTrimEnd(s[..|s| - 1]);
      WordsAppendBlank(s[..|s| - 1], s[|s| - 1]);
      assert s == s[..|s| - 1] + [s[|s| - 1]];
    }
  }

  lemma {:induction false} WordsTrimStart(s: string)
    ensures Words(TrimStart(s)) == Words(s)
  {
    if s != "" && IsSpace(s[0]) { WordsTrimStart(s[1..]); }
  }

  lemma WordsTrim(s: string)
    ensures Words(Trim(s)) == Words(s)
  {
    WordsTrimStart(s);
    WordsTrimEnd(TrimStart(s));
  }

  lemma SqueezeKeepsWords(s: string)
    ensures Words(Squeeze(s)) == Words(s)
  {
    var b := ReplaceRuns(s, IsPunctuation);
    ReplaceRunsKeepsWords(s, IsPunctuation);
    ReplaceRunsKeepsWords(b, IsSpace);
    WordsTrim(ReplaceRuns(b, IsSpace));
  }

  // ---- and how it spells them

  /** Only plain spaces separate. */
  predicate Plain(s: string) { forall i :: 0 <= i < |s| && Separates(s[i]) ==> s[i] == ' ' }

  /** Never two spaces in a row. */
  predicate Single(s: string) { forall i :: 0 <= i < |s| - 1 && s[i] == ' ' ==> s[i + 1] != ' ' }

  predicate Spaced(s: string) { Plain(s) && Single(s) }

  predicate Neat(s: string) { Spaced(s) && (s == "" || (s[0] != ' ' && s[|s| - 1] != ' ')) }

  lemma {:induction false} ReplaceRunsClears(s: string, p: char -> bool)
    ensures forall i :: 0 <= i < |ReplaceRuns(s, p)| ==>
      ReplaceRuns(s, p)[i] == ' ' || (!p(ReplaceRuns(s, p)[i]) && ReplaceRuns(s, p)[i] in s)
    decreases |s|
  {
    if s != "" {
      var rest := if p(s[0]) then DropWhile(s[1..], p) else s[1..];
      DropIsPart(s[1..], p);
      ReplaceRunsClears(rest, p);
    }
  }

  lemma {:induction false} DropIsPart(s: string, p: char -> bool)
    ensures forall c :: c in DropWhile(s, p) ==> c in s
  {
    if s != "" && p(s[0]) { DropIsPart(s[1..], p); }
  }

  lemma {:induction false} ReplaceRunsSpaces(s: string)
    ensures Single(ReplaceRuns(s, IsSpace))
    ensures s != "" && !IsSpace(s[0]) ==> ReplaceRuns(s, IsSpace) != "" && ReplaceRuns(s, IsSpace)[0] == s[0]
    decreases |s|
  {
    if s != "" {
      var rest := if IsSpace(s[0]) then DropWhile(s[1..], IsSpace) else s[1..];
      ReplaceRunsSpaces(rest);
      var r, q := ReplaceRuns(s, IsSpace), ReplaceRuns(rest, IsSpace);
      assert r[1..] == q;
      forall i | 0 <= i < |r| - 1 && r[i] == ' ' ensures r[i + 1] != ' ' {
        assert r[i + 1] == q[i];
        if i > 0 { assert r[i] == q[i - 1]; }
      }
    }
  }

  lemma {:induction false} TrimIsInside(s: string) returns (a: nat, b: nat)
    ensures a <= b <= |s| && Trim(s) == s[a..b]
  {
    a := TrimStartAt(s);
    var t := TrimStart(s);
    b := a + |TrimEnd(t)|;
    assert TrimEnd(t) == t[..|TrimEnd(t)|];
  }

  lemma {:induction false} TrimStartAt(s: string) returns (a: nat)
    ensures a <= |s| && TrimStart(s) == s[a..]
  {
    if s != "" && IsSpace(s[0]) {
      var k := TrimStartAt(s[1..]);
      a := k + 1;
    } else {
      a := 0;
    }
  }

  lemma TrimmedIsNeat(s: string)
    requires Spaced(s)
    ensures Neat(Trim(s))
  {
    var i, j := TrimIsInside(s);
    var t := s[i..j];
    assert forall k :: 0 <= k < |t| ==> t[k] == s[i + k];
  }

  lemma SqueezeIsNeat(s: string)
    ensures Neat(Squeeze(s))
  {
    var b := ReplaceRuns(s, IsPunctuation);
    var c := ReplaceRuns(b, IsSpace);
    ReplaceRunsClears(s, IsPunctuation);
    ReplaceRunsClears(b, IsSpace);
    assert Plain(c);
    ReplaceRunsSpaces(b);
    TrimmedIsNeat(c);
  }

  lemma {:induction false} NeatIsJoined(s: string)
    requires Neat(s)
    ensures Join(Words(s), ' ') == s
    decreases |s|
  {
    if s != "" {
      var w := FirstWord(s);
      assert w != "" && s[..|w|] == w;
      var rest := s[|w|..];
      if rest == "" {
        assert Words(s) == [w];
        assert s == w;
      } else {
        assert rest[0] == s[|w|] == ' ';
        assert rest[1..] != "" && rest[1] == s[|w| + 1] != ' ';
        var tail := rest[1..];
        assert tail == s[|w| + 1..];
        assert Neat(tail);
        NeatIsJoined(tail);
        assert Words(rest) == Words(tail);
        assert Words(tail) != [];
        assert Words(s) == [w] + Words(tail);
        assert s == w + [' '] + tail;
      }
    }
  }

  lemma SqueezeIsWords(s: string)
    ensures Squeeze(s) == Join(Words(s), ' ') && Words(Squeeze(s)) == Words(s)
  {
    SqueezeKeepsWords(s);
    SqueezeIsNeat(s);
    NeatIsJoined(Squeeze(s));
  }

  /** The normal form is the words of the folded line, joined by single spaces. */
  lemma NormalFormIsWords(value: string, fold: string -> string)
    requires NormalizeLine1(value, fold).Ok?
    ensures NormalizeLine1(value, fold).value == Join(Words(fold(Trim(value))), ' ')
  {
    SqueezeIsWords(fold(Trim(value)));
  }

  /** Two lines normalise alike exactly when they are the same words once folded. */
  lemma SameNormalFormIffSameWords(a: string, b: string, fold: string -> string)
    requires NormalizeLine1(a, fold).Ok? && NormalizeLine1(b, fold).Ok?
    ensures NormalizeLine1(a, fold) == NormalizeLine1(b, fold) <==> Words(fold(Trim(a))) == Words(fold(Trim(b)))
  {
    SqueezeIsWords(fold(Trim(a)));
    SqueezeIsWords(fold(Trim(b)));
  }

  lemma NeatIsTrimmed(s: string)
    requires Neat(s)
    ensures Trim(s) == s
  {
    if s != "" {
      assert s[0] != ' ' && s[|s| - 1] != ' ';
      assert !IsSpace(s[0]) && !IsSpace(s[|s| - 1]);
    }
  }

  /** A normal form normalises to itself exactly when it has a word, is no longer than a line may be, and folding leaves
      its words: not for a line of punctuation alone, and not for one that folding stretches past the limit. */
  lemma {:induction false} NormalFormIsFixedIff(value: string, fold: string -> string)
    requires NormalizeLine1(value, fold).Ok?
    ensures var n := NormalizeLine1(value, fold).value;
      NormalizeLine1(n, fold) == Ok(n) <==> n != "" && |n| <= 500 && Words(fold(n)) == Words(n)
  {
    var n := NormalizeLine1(value, fold).value;
    SqueezeIsWords(fold(Trim(value)));
    SqueezeIsWords(fold(n));
    SqueezeIsNeat(fold(Trim(value)));
    NeatIsJoined(n);
    NeatIsTrimmed(n);
  }
}
