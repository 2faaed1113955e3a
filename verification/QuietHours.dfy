/** Quiet hours and the one-hour deferral of an event that falls into them (`autopilot.service.ts`). */
module QuietHours {
  import opened Text

  const DAY := 1440
  const DEFERRAL := 60

  /** What the preference route admits: two digits, a colon, two digits. */
  predicate ClockText(t: string) {
    |t| == 5 && Digits(t[..2]) && t[2] == ':' && Digits(t[3..])
  }

  function ClockMinutes(t: string): nat
    requires ClockText(t)
  {
    ParseDigits(t[..2]) * 60 + ParseDigits(t[3..])
  }

  /** A preference text is two digits, a colon and two digits, and is read as that many hours and minutes. */
  lemma ClockTextReads(t: string)
    ensures ClockText(t) <==> |t| == 5 && t[2] == ':' && forall i :: i in {0, 1, 3, 4} ==> '0' <= t[i] <= '9'
    ensures ClockText(t) ==>
      ClockMinutes(t) == (10 * Digit(t[0]) + Digit(t[1])) * 60 + 10 * Digit(t[3]) + Digit(t[4])
  {
    if |t| == 5 {
      assert t[..2] == [t[0], t[1]] && t[3..] == [t[3], t[4]];
      if ClockText(t) {
        assert t[0] == t[..2][0] && t[1] == t[..2][1] && t[3] == t[3..][0] && t[4] == t[3..][1];
        TwoDigits(t[0], t[1]);
        TwoDigits(t[3], t[4]);
      }
    }
  }

  function Digit(c: char): int { c as int - '0' as int }

  lemma TwoDigits(a: char, b: char)
    requires Digits([a, b])
    ensures ParseDigits([a, b]) == 10 * Digit(a) + Digit(b)
  {
    assert [a, b][..1] == [a] && [a][..0] == "";
    assert IsDigit([a, b][0]) && IsDigit([a, b][1]);
    assert ParseDigits([a]) == Digit(a);
  }

  /** The comparison on minutes; "99:99" passes the route, so `starts` and `ends` may lie past midnight. */
  predicate InQuietMinutes(current: nat, starts: nat, ends: nat) {
    if starts == ends then false
    else if starts < ends then starts <= current < ends
    else current >= starts || current < ends
  }

  predicate InQuietHours(current: nat, start: string, end: string)
    requires ClockText(start) && ClockText(end)
  {
    InQuietMinutes(current, ClockMinutes(start), ClockMinutes(end))
  }

  function QuietLength(starts: nat, ends: nat): (l: nat)
    ensures l < DAY
  {
    (ends - starts) % DAY
  }

  /** How far `t` lies past the start of the quiet period, around the clock. */
  function Offset(t: int, starts: nat): (x: nat)
    ensures x < DAY
  {
    (t - starts) % DAY
  }

  lemma ModShift(a: int, k: int)
    ensures (a + k * DAY) % DAY == a % DAY
  {
  }

  lemma ModInRange(a: int)
    requires -DAY <= a < DAY
    ensures a % DAY == if a < 0 then a + DAY else a
  {
  }

  /** For clock times the two-case comparison is one test around the clock. */
  lemma QuietIsModular(current: nat, starts: nat, ends: nat)
    requires current < DAY && starts < DAY && ends < DAY
    ensures InQuietMinutes(current, starts, ends) <==> Offset(current, starts) < QuietLength(starts, ends)
  {
    ModInRange(current - starts);
    ModInRange(ends - starts);
  }

  /** When the comparison on raw minutes is the test around the clock. */
  predicate Regular(starts: nat, ends: nat) {
    || starts == ends
    || (starts < DAY && ends < DAY)
    || (0 < starts < DAY && ends >= DAY && ends % DAY == 0)
    || (starts >= DAY && ends < DAY && starts % DAY == 0)
    || (DAY <= starts < ends && starts % DAY == ends % DAY)
  }

  lemma ReducedTest(current: nat, starts: nat, ends: nat)
    requires current < DAY
    ensures Offset(current, starts) == Offset(current, starts % DAY)
    ensures QuietLength(starts, ends) == QuietLength(starts % DAY, ends % DAY)
  {
    ModShift(current - starts % DAY, -(starts / DAY));
    ModShift(ends % DAY - starts % DAY, ends / DAY - starts / DAY);
  }

  lemma RegularIsModular(current: nat, starts: nat, ends: nat)
    requires current < DAY && Regular(starts, ends)
    ensures InQuietMinutes(current, starts, ends) <==> Offset(current, starts) < QuietLength(starts, ends)
  {
    ReducedTest(current, starts, ends);
    QuietIsModular(current, starts % DAY, ends % DAY);
  }

  /** A minute of the day on which an irregular pair and the test around the clock disagree. */
  lemma IrregularDisagrees(starts: nat, ends: nat) returns (current: nat)
    requires !Regular(starts, ends)
    ensures current < DAY
    ensures InQuietMinutes(current, starts, ends) != (Offset(current, starts) < QuietLength(starts, ends))
  {
    var s, e := starts % DAY, ends % DAY;
    if starts < DAY {
      current := if starts == 0 then DAY - 1 else if e < s then 0 else e;
    } else if ends < DAY {
      current := if e == 0 then s else if s <= e then 0 else s;
    } else if starts < ends {
      current := s;
    } else {
      current := if s == e then 0 else e;
    }
    ReducedTest(current, starts, ends);
    QuietIsModular(current, s, e);
  }

  /** The quiet-hours test goes around the clock exactly for regular pairs of minutes. */
  lemma ModularIffRegular(starts: nat, ends: nat)
    ensures Regular(starts, ends) <==>
      forall current: nat :: current < DAY ==>
        (InQuietMinutes(current, starts, ends) <==> Offset(current, starts) < QuietLength(starts, ends))
  {
    if Regular(starts, ends) {
      forall current: nat | current < DAY
        ensures InQuietMinutes(current, starts, ends) <==> Offset(current, starts) < QuietLength(starts, ends)
      {
        RegularIsModular(current, starts, ends);
      }
    } else {
      var current := IrregularDisagrees(starts, ends);
    }
  }

  /** A time of day. */
  predicate TimeOfDay(t: string) { ClockText(t) && ParseDigits(t[..2]) < 24 && ParseDigits(t[3..]) < 60 }

  /** On the texts of the preferences: two times of day are always taken around the clock. */
  lemma {:induction false} QuietHoursAreModular(current: nat, start: string, end: string)
    requires current < DAY && TimeOfDay(start) && TimeOfDay(end)
    ensures InQuietHours(current, start, end) <==>
      Offset(current, ClockMinutes(start)) < QuietLength(ClockMinutes(start), ClockMinutes(end))
  {
    QuietIsModular(current, ClockMinutes(start), ClockMinutes(end));
  }

  /** Of all the texts that the route admits, "99:99" included, exactly the regular pairs are taken around the clock. */
  lemma {:induction false} QuietHoursModularIffRegular(start: string, end: string)
    requires ClockText(start) && ClockText(end)
    ensures var starts, ends := ClockMinutes(start), ClockMinutes(end);
      Regular(starts, ends) <==>
        forall current: nat :: current < DAY ==>
          (InQuietHours(current, start, end) <==> Offset(current, starts) < QuietLength(starts, ends))
  {
    ModularIffRegular(ClockMinutes(start), ClockMinutes(end));
  }

  // ---- deferrals

  /** Is the absolute minute `t` quiet? */
  predicate Quiet(t: int, starts: nat, ends: nat) { InQuietMinutes(t % DAY, starts, ends) }

  /** The minute of the k-th attempt when each deferral is followed up after `delays[i]` minutes. */
  function Attempt(t: int, delays: seq<nat>, k: nat): int
    requires k <= |delays|
  {
    if k == 0 then t else Attempt(t, delays, k - 1) + delays[k - 1]
  }

  lemma QuietOffset(t: int, starts: nat, ends: nat)
    requires starts < DAY && ends < DAY
    ensures Quiet(t, starts, ends) <==> Offset(t, starts) < QuietLength(starts, ends)
  {
    QuietIsModular(t % DAY, starts, ends);
    ModShift(t % DAY - starts, t / DAY);
  }

  lemma OffsetAdvances(t: int, starts: nat, d: nat)
    requires Offset(t, starts) + d < DAY
    ensures Offset(t + d, starts) == Offset(t, starts) + d
  {
    var q := (t - starts) / DAY;
    ModShift(Offset(t, starts) + d, q);
    ModInRange(Offset(t, starts) + d);
  }

  /** While every attempt stays quiet, k deferrals advance the clock by an hour each without wrapping. */
  lemma {:induction false} QuietAttemptsAdvance(t: int, delays: seq<nat>, k: nat, starts: nat, ends: nat)
    requires starts < DAY && ends < DAY && k <= |delays|
    requires forall i :: 0 <= i < k ==> DEFERRAL <= delays[i] <= DAY - QuietLength(starts, ends)
    requires forall i :: 0 <= i < k ==> Quiet(Attempt(t, delays, i), starts, ends)
    ensures Offset(Attempt(t, delays, k), starts) >= Offset(t, starts) + DEFERRAL * k
  {
    if k > 0 {
      var previous := Attempt(t, delays, k - 1);
      QuietAttemptsAdvance(t, delays, k - 1, starts, ends);
      QuietOffset(previous, starts, ends);
      OffsetAdvances(previous, starts, delays[k - 1]);
    }
  }

  function DeferralsNeeded(starts: nat, ends: nat): nat {
    (QuietLength(starts, ends) + DEFERRAL - 1) / DEFERRAL
  }

  /** Follow-ups an hour or more apart, but no later than the quiet-free stretch is long, escape in time. */
  lemma DeferralsEscape(t: int, delays: seq<nat>, starts: nat, ends: nat) returns (k: nat)
    requires starts < DAY && ends < DAY
    requires |delays| >= DeferralsNeeded(starts, ends)
    requires forall i :: 0 <= i < |delays| ==> DEFERRAL <= delays[i] <= DAY - QuietLength(starts, ends)
    ensures k <= DeferralsNeeded(starts, ends)
    ensures !Quiet(Attempt(t, delays, k), starts, ends)
    ensures forall i :: 0 <= i < k ==> Quiet(Attempt(t, delays, i), starts, ends)
  {
    k := 0;
    while Quiet(Attempt(t, delays, k), starts, ends)
      invariant k <= DeferralsNeeded(starts, ends)
      invariant forall i :: 0 <= i < k ==> Quiet(Attempt(t, delays, i), starts, ends)
      decreases DeferralsNeeded(starts, ends) - k
    {
      QuietAttemptsAdvance(t, delays, k, starts, ends);
      QuietOffset(Attempt(t, delays, k), starts, ends);
      k := k + 1;
    }
  }

  function Hourly(k: nat): (delays: seq<nat>)
    ensures |delays| == k
  {
    seq(k, _ => DEFERRAL)
  }

  lemma {:induction false} HourlyAttempt(t: int, delays: seq<nat>, k: nat)
    requires k <= |delays| && forall i :: 0 <= i < |delays| ==> delays[i] == DEFERRAL
    ensures Attempt(t, delays, k) == t + DEFERRAL * k
  {
    if k > 0 { HourlyAttempt(t, delays, k - 1); }
  }

  /** Is the event still quiet after `k` deferrals of exactly an hour? */
  predicate QuietAfter(t: int, k: nat, starts: nat, ends: nat) { Quiet(t + DEFERRAL * k, starts, ends) }

  ghost predicate Escapes(t: int, starts: nat, ends: nat) {
    exists k: nat :: !QuietAfter(t, k, starts, ends)
  }

  /** With less than an hour free, an event first tried as quiet hours begin is quiet at every hour after. */
  lemma ShortGapStarves(starts: nat, ends: nat, k: nat)
    requires starts < DAY && ends < DAY && DAY - QuietLength(starts, ends) < DEFERRAL
    ensures QuietAfter(starts, k, starts, ends)
  {
    QuietOffset(starts + DEFERRAL * k, starts, ends);
    var x := Offset(starts + DEFERRAL * k, starts);
    var q := (DEFERRAL * k) / DAY;
    assert x == DEFERRAL * k - q * DAY == DEFERRAL * (k - q * 24);
  }

  /** The hourly deferral always ends exactly when at least an hour of the day is not quiet. */
  lemma HourlyEscapesIffGap(starts: nat, ends: nat)
    requires starts < DAY && ends < DAY
    ensures DAY - QuietLength(starts, ends) >= DEFERRAL <==> forall t: int :: Escapes(t, starts, ends)
  {
    if DAY - QuietLength(starts, ends) >= DEFERRAL {
      forall t: int ensures Escapes(t, starts, ends) {
        var delays := Hourly(DeferralsNeeded(starts, ends));
        var k := DeferralsEscape(t, delays, starts, ends);
        HourlyAttempt(t, delays, k);
        assert !QuietAfter(t, k, starts, ends);
      }
    } else {
      forall k: nat ensures QuietAfter(starts, k, starts, ends) {
        ShortGapStarves(starts, ends, k);
      }
      assert !Escapes(starts, starts, ends);
    }
  }
}
