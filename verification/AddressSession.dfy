/** Phone verification of one checkout address session (`checkout-address-session.service.ts`) with the OTP
    verifier behind it (`checkout-phone-verifier.ts`).

    Each call is one step. Hashes are collision free, so a stored hash is modelled by what it hashes: the phone
    number for `phoneHash`, the handle for `verificationHandleHash`. Requests with a token that does not verify
    touch nothing and are not steps. */
module AddressSession {
  import opened Base
  import opened Text

  const VERIFICATION_TTL_MS: nat := 300_000
  const MAX_ATTEMPTS: nat := 5

  datatype Status = Created | Started | Verified | Expired

  /** A handle: what it signs, and whether the signature is the service's. */
  datatype Handle = Handle(phone: string, exp: nat, nonce: nat, signed: bool)

  /** The row; the verification fields are written together by a start. */
  datatype Session = Session(
    tokenExp: nat, expiresAt: nat, status: Status, verification: Option<Verification>, attempts: nat,
    phone: Option<string>)

  datatype Verification = Verification(handle: Handle, expiresAt: nat)

  /** The session, the handles the verifier has consumed, and the next nonce. */
  datatype Machine = Machine(session: Session, consumed: set<Handle>, nonce: nat)

  function Fresh(tokenExp: nat, expiresAt: nat): Machine {
    Machine(Session(tokenExp, expiresAt, Created, None, 0, None), {}, 0)
  }

  datatype Refusal =
    | SessionExpired | ProviderInvalid | PhoneInvalid | NotStarted | AttemptsExceeded | HandleExpired | HandleInvalid
    | HandleConsumed | OtpNotConfigured | OtpInvalid | NotVerified | PhoneNotVerified

  /** The HTTP error a refusal is sent as. */
  function Http(r: Refusal): HttpError {
    match r
    case SessionExpired => HttpError(401, "CHECKOUT_SESSION_EXPIRED")
    case ProviderInvalid => HttpError(400, "CHECKOUT_PHONE_PROVIDER_INVALID")
    case PhoneInvalid => HttpError(400, "ADDRESS_PHONE_INVALID")
    case NotStarted => HttpError(409, "CHECKOUT_VERIFICATION_NOT_STARTED")
    case AttemptsExceeded => HttpError(429, "CHECKOUT_VERIFICATION_ATTEMPTS_EXCEEDED")
    case HandleExpired => HttpError(410, "CHECKOUT_VERIFICATION_HANDLE_EXPIRED")
    case HandleInvalid => HttpError(400, "CHECKOUT_VERIFICATION_HANDLE_INVALID")
    case HandleConsumed => HttpError(409, "CHECKOUT_VERIFICATION_HANDLE_CONSUMED")
    case OtpNotConfigured => HttpError(503, "CHECKOUT_OTP_NOT_CONFIGURED")
    case OtpInvalid => HttpError(400, "CHECKOUT_OTP_INVALID")
    case NotVerified => HttpError(401, "CHECKOUT_SESSION_NOT_VERIFIED")
    case PhoneNotVerified => HttpError(409, "CHECKOUT_SESSION_PHONE_NOT_VERIFIED")
  }

  datatype Provider = Otp | Truecaller | OtherProvider

  datatype Op =
    | Start(now: nat, provider: Provider, phone: Option<string>)  // the normalised phone, if it is one
    | Confirm(now: nat, handle: Handle, otp: string)              // the proof without surrounding blanks
    | RequireVerified(now: nat)

  datatype Outcome =
    | Begun(handle: Handle)
    | Unavailable
    | Confirmed
    | Context(phone: string)
    | Refused(refusal: Refusal)

  // ---- phones

  predicate Dropped(c: char) { IsSpace(c) || c in {'(', ')', '.', '-'} }

  function Compact(s: string): string {
    if s == "" then "" else (if Dropped(s[0]) then "" else [s[0]]) + Compact(s[1..])
  }

  predicate National(s: string) { |s| == 10 && Digits(s) && '6' <= s[0] <= '9' }

  /** `normalizeIndianPhone`: ten digits from 6 up, with or without the country code. */
  function NormalizePhone(input: string): (r: Option<string>)
    ensures r.Some? ==> |r.value| == 13 && r.value[..3] == "+91" && National(r.value[3..])
  {
    var compact := Compact(Trim(input));
    var digits := if compact != "" && compact[0] == '+' then compact[1..] else compact;
    var national := if |digits| == 12 && digits[..2] == "91" && Digits(digits) then digits[2..] else digits;
    if National(national) then Some("+91" + national) else None
  }

  lemma {:induction false} CompactKeeps(s: string)
    requires forall i :: 0 <= i < |s| ==> !Dropped(s[i])
    ensures Compact(s) == s
  {
    if s != "" { CompactKeeps(s[1..]); }
  }

  lemma PlainIsKept(s: string)
    requires s != "" && forall i :: 0 <= i < |s| ==> !Dropped(s[i])
    ensures Compact(Trim(s)) == s
  {
    assert !Dropped(s[0]) && !Dropped(s[|s| - 1]);
    CompactKeeps(s);
  }

  lemma CountryCodeIsPlain(national: string)
    requires National(national)
    ensures var e164 := "+91" + national;
      && (forall i :: 0 <= i < |e164| ==> !Dropped(e164[i]))
      && |e164[1..]| == 12 && e164[1..][..2] == "91" && Digits(e164[1..]) && e164[1..][2..] == national
  {
    var e164 := "+91" + national;
    assert e164[0] == '+' && e164[1] == '9' && e164[2] == '1';
    forall i | 0 <= i < |e164| ensures !Dropped(e164[i]) && (i >= 1 ==> IsDigit(e164[i])) {
      if i >= 3 { assert e164[i] == national[i - 3]; }
    }
  }

  /** A normalised phone normalises to itself, so one phone has one hash however it is typed again. */
  lemma NormalizedPhoneIsFixed(input: string)
    requires NormalizePhone(input).Some?
    ensures NormalizePhone(NormalizePhone(input).value) == NormalizePhone(input)
  {
    var e164 := NormalizePhone(input).value;
    var national := e164[3..];
    assert e164 == "+91" + national by { assert e164 == e164[..3] + e164[3..]; }
    CountryCodeIsPlain(national);
    PlainIsKept(e164);
  }

  /** The ten digits of an Indian mobile number. */
  predicate TenDigits(n: string) { |n| == 10 && '6' <= n[0] <= '9' && forall i :: 0 <= i < 10 ==> '0' <= n[i] <= '9' }

  /** A text is taken as a number exactly if, without blanks, brackets, dots and dashes, it is the number's ten
      digits, with or without the country code, and each of these with or without a plus. */
  lemma PhoneAcceptedIff(input: string, n: string)
    ensures NormalizePhone(input) == Some("+91" + n) <==>
      TenDigits(n) && Compact(Trim(input)) in {n, "+" + n, "91" + n, "+91" + n}
  {
    var compact := Compact(Trim(input));
    if TenDigits(n) && compact in {n, "+" + n, "91" + n, "+91" + n} {
      assert ("+" + n)[1..] == n && ("91" + n)[2..] == n && ("+91" + n)[1..] == "91" + n;
      assert forall i :: 2 <= i < 12 ==> ("91" + n)[i] == n[i - 2];
    }
    if NormalizePhone(input) == Some("+91" + n) { AcceptedSpellings(input, n); }
  }

  lemma WithoutCode(digits: string, n: string)
    requires digits == n || (|digits| == 12 && digits[..2] == "91" && digits[2..] == n)
    ensures digits == n || digits == "91" + n
  {
    if digits != n { assert digits == digits[..2] + digits[2..]; }
  }

  lemma AcceptedSpellings(input: string, n: string)
    requires NormalizePhone(input) == Some("+91" + n)
    ensures TenDigits(n)
    ensures var c := Compact(Trim(input)); c == n || c == "+" + n || c == "91" + n || c == "+91" + n
  {
    var compact := Compact(Trim(input));
    var digits := if compact != "" && compact[0] == '+' then compact[1..] else compact;
    assert ("+91" + n)[3..] == n;
    WithoutCode(digits, n);
    WithoutPlus(compact, digits, n);
  }

  lemma WithoutPlus(compact: string, digits: string, n: string)
    requires digits == n || digits == "91" + n
    requires compact == digits || (compact != "" && compact[0] == '+' && compact[1..] == digits)
    ensures compact == n || compact == "+" + n || compact == "91" + n || compact == "+91" + n
  {
    if compact != digits {
      assert compact == "+" + digits;
      assert "+" + ("91" + n) == "+91" + n;
    }
  }

  lemma Regroup(a: string, b: string, c: string, d: string)
    ensures a + (b + c + d) == (a + b) + c + d
  {
  }

  /** What `Compact` drops: blanks, brackets, dots and dashes, wherever they are, and nothing else. */
  lemma {:induction false} CompactDrops(a: string, c: char, b: string)
    ensures Compact(a + [c] + b) ==
      Compact(a) + (if IsSpace(c) || c == '(' || c == ')' || c == '.' || c == '-' then "" else [c]) + Compact(b)
    ensures Compact("") == ""
  {
    var whole := a + [c] + b;
    if a == "" {
      assert whole[0] == c && whole[1..] == b;
    } else {
      CompactDrops(a[1..], c, b);
      assert whole[0] == a[0] && whole[1..] == a[1..] + [c] + b;
      var head := if Dropped(a[0]) then "" else [a[0]];
      var mid := if Dropped(c) then "" else [c];
      Regroup(head, Compact(a[1..]), mid, Compact(b));
    }
  }

  // ---- the verifier

  /** `OtpVerifier.confirm`, given the expected code, if one is configured. */
  function VerifyOtp(consumed: set<Handle>, code: Option<string>, handle: Handle, otp: string, phone: string,
      deadline: nat, now: nat)
    : Option<Refusal>
  {
    if handle in consumed then Some(HandleConsumed)
    else if !handle.signed || handle.phone != phone then Some(HandleInvalid)
    else if handle.exp <= now || deadline <= now then Some(HandleExpired)
    else if code.None? then Some(OtpNotConfigured)
    else if otp != code.value then Some(OtpInvalid)
    else None
  }

  /** The verifier takes a proof exactly for a handle it signed for this phone, has not consumed, and whose time and the
      row's time have not come, and for the configured code. */
  lemma VerifierAcceptsIff(consumed: set<Handle>, code: Option<string>, handle: Handle, otp: string, phone: string,
      deadline: nat, now: nat)
    ensures VerifyOtp(consumed, code, handle, otp, phone, deadline, now).None? <==>
      && handle.signed && handle.phone == phone && handle !in consumed && now < handle.exp && now < deadline
      && code == Some(otp)
    ensures var refusal := VerifyOtp(consumed, code, handle, otp, phone, deadline, now);
      && (handle in consumed ==> refusal == Some(HandleConsumed))
      && (handle !in consumed && (!handle.signed || handle.phone != phone) ==> refusal == Some(HandleInvalid))
      && (handle !in consumed && handle.signed && handle.phone == phone && (handle.exp <= now || deadline <= now) ==>
            refusal == Some(HandleExpired))
    ensures Http(HandleConsumed) == HttpError(409, "CHECKOUT_VERIFICATION_HANDLE_CONSUMED")
  {
  }

  // ---- the calls

  datatype Stepped = Stepped(machine: Machine, outcome: Outcome)

  function MarkExpired(m: Machine): Machine { m.(session := m.session.(status := Expired)) }

  function IncrementAttempts(m: Machine): Machine { m.(session := m.session.(attempts := m.session.attempts + 1)) }

  /** `requireActiveSession`: the refusal, if any, and the row it leaves. */
  function RequireActive(m: Machine, now: nat): (Machine, Option<Refusal>) {
    if m.session.tokenExp <= now then (m, Some(SessionExpired))
    else if m.session.expiresAt <= now then (MarkExpired(m), Some(SessionExpired))
    else if m.session.status == Expired then (m, Some(SessionExpired))
    else (m, None)
  }

  function StartStep(m: Machine, now: nat, provider: Provider, phone: Option<string>): Stepped {
    if provider == Truecaller then Stepped(m, Unavailable)
    else if provider != Otp then Stepped(m, Refused(ProviderInvalid))
    else if phone.None? then Stepped(m, Refused(PhoneInvalid))
    else
      var deadline := now + VERIFICATION_TTL_MS;
      var handle := Handle(phone.value, deadline, m.nonce, true);
      Stepped(Machine(m.session.(status := Started, verification := Some(Verification(handle, deadline)), attempts := 0,
                                 phone := phone),
                      m.consumed, m.nonce + 1),
              Begun(handle))
  }

  function ConfirmStep(m: Machine, code: Option<string>, now: nat, handle: Handle, otp: string): Stepped {
    var s := m.session;
    if s.status != Started || s.verification.None? || s.phone.None? then
      Stepped(m, Refused(NotStarted))
    else if s.attempts >= MAX_ATTEMPTS then Stepped(m, Refused(AttemptsExceeded))
    else if s.verification.value.expiresAt <= now then
      Stepped(MarkExpired(m), Refused(HandleExpired))
    else if handle != s.verification.value.handle then
      Stepped(IncrementAttempts(m), Refused(HandleInvalid))
    else
      var refusal := VerifyOtp(m.consumed, code, handle, otp, s.phone.value, s.verification.value.expiresAt, now);
      if refusal.None? then
        Stepped(m.(session := s.(status := Verified), consumed := m.consumed + {handle}), Confirmed)
      else if refusal.value == OtpInvalid then Stepped(IncrementAttempts(m), Refused(refusal.value))
      else Stepped(m, Refused(refusal.value))
  }

  function RequireStep(m: Machine): Stepped {
    if m.session.status != Verified then Stepped(m, Refused(NotVerified))
    else if m.session.phone.None? then Stepped(m, Refused(PhoneNotVerified))
    else Stepped(m, Context(m.session.phone.value))
  }

  function Step(code: Option<string>, m: Machine, op: Op): Stepped {
    var (active, refusal) := RequireActive(m, op.now);
    if refusal.Some? then Stepped(active, Refused(refusal.value))
    else match op
      case Start(now, provider, phone) => StartStep(m, now, provider, phone)
      case Confirm(now, handle, otp) => ConfirmStep(m, code, now, handle, otp)
      case RequireVerified(_) => RequireStep(m)
  }

  function Run(code: Option<string>, m: Machine, ops: seq<Op>): Machine {
    if ops == [] then m else var n := |ops| - 1; Step(code, Run(code, m, ops[..n]), ops[n]).machine
  }

  class CheckoutAddressSessionService {
    const code: Option<string>
    var session: Session
    var consumed: set<Handle>
    var nonce: nat

    ghost function Abstract(): Machine
      reads this
    {
      Machine(session, consumed, nonce)
    }

    constructor (code: Option<string>, tokenExp: nat, expiresAt: nat)
      ensures Abstract() == Fresh(tokenExp, expiresAt) && this.code == code
    {
      this.code := code;
      session := Session(tokenExp, expiresAt, Created, None, 0, None);
      consumed, nonce := {}, 0;
    }

    method RequireActiveSession(now: nat) returns (refusal: Option<Refusal>)
      modifies this`session
      ensures (Abstract(), refusal) == RequireActive(old(Abstract()), now)
    {
      refusal := Some(SessionExpired);
      if session.tokenExp <= now { return; }
      if session.expiresAt <= now {
        session := session.(status := Expired);
        return;
      }
      if session.status == Expired { return; }
      refusal := None;
    }

    method StartPhoneVerification(now: nat, provider: Provider, phone: string) returns (outcome: Outcome)
      modifies this
      ensures Stepped(Abstract(), outcome) == Step(code, old(Abstract()), Start(now, provider, NormalizePhone(phone)))
    {
      var refusal := RequireActiveSession(now);
      if refusal.Some? { return Refused(refusal.value); }
      if provider == Truecaller { return Unavailable; }
      if provider != Otp { return Refused(ProviderInvalid); }
      var normal := NormalizePhone(phone);
      if normal.None? { return Refused(PhoneInvalid); }
      var deadline := now + VERIFICATION_TTL_MS;
      var handle := Handle(normal.value, deadline, nonce, true);
      nonce := nonce + 1;
      session := session.(status := Started, verification := Some(Verification(handle, deadline)), attempts := 0,
                          phone := Some(normal.value));
      return Begun(handle);
    }

    method ConfirmPhoneVerification(now: nat, handle: Handle, proof: string) returns (outcome: Outcome)
      modifies this
      ensures Stepped(Abstract(), outcome) == Step(code, old(Abstract()), Confirm(now, handle, Trim(proof)))
    {
      var refusal := RequireActiveSession(now);
      if refusal.Some? { return Refused(refusal.value); }
      if session.status != Started || session.verification.None? || session.phone.None? {
        return Refused(NotStarted);
      }
      if session.attempts >= MAX_ATTEMPTS { return Refused(AttemptsExceeded); }
      var verification := session.verification.value;
      if verification.expiresAt <= now {
        session := session.(status := Expired);
        return Refused(HandleExpired);
      }
      if handle != verification.handle {
        session := session.(attempts := session.attempts + 1);
        return Refused(HandleInvalid);
      }
      refusal := VerifyOtp(consumed, code, handle, Trim(proof), session.phone.value, verification.expiresAt, now);
      if refusal.Some? {
        if refusal.value == OtpInvalid {
          session := session.(attempts := session.attempts + 1);
        }
        return Refused(refusal.value);
      }
      consumed := consumed + {handle};
      session := session.(status := Verified);
      return Confirmed;
    }

    method RequireVerifiedCheckoutSession(now: nat) returns (outcome: Outcome)
      modifies this
      ensures Stepped(Abstract(), outcome) == Step(code, old(Abstract()), RequireVerified(now))
    {
      var refusal := RequireActiveSession(now);
      if refusal.Some? { return Refused(refusal.value); }
      if session.status != Verified { return Refused(NotVerified); }
      if session.phone.None? { return Refused(PhoneNotVerified); }
      return Context(session.phone.value);
    }
  }

  // ---- the history a client saw

  datatype Event = Event(op: Op, outcome: Outcome)

  /** The calls with what each was answered. */
  function History(code: Option<string>, m: Machine, ops: seq<Op>): (h: seq<Event>)
    ensures |h| == |ops|
    ensures forall k :: 0 <= k < |ops| ==> h[k].op == ops[k]
  {
    if ops == [] then []
    else
      var n := |ops| - 1;
      History(code, m, ops[..n]) + [Event(ops[n], Step(code, Run(code, m, ops[..n]), ops[n]).outcome)]
  }

  /** A confirm that was told its handle or its code is wrong. */
  predicate WrongConfirm(e: Event) {
    e.op.Confirm? && (e.outcome == Refused(HandleInvalid) || e.outcome == Refused(OtpInvalid))
  }

  /** The last call of the history that began a verification. */
  function LastStart(h: seq<Event>): (i: Option<nat>)
    ensures i.Some? ==> i.value < |h| && h[i.value].outcome.Begun?
    ensures i.Some? ==> forall k :: i.value < k < |h| ==> !h[k].outcome.Begun?
    ensures i.None? ==> forall k :: 0 <= k < |h| ==> !h[k].outcome.Begun?
  {
    if h == [] then None
    else if h[|h| - 1].outcome.Begun? then Some(|h| - 1)
    else LastStart(h[..|h| - 1])
  }

  /** The wrong confirms after the i-th call. */
  function WrongSince(h: seq<Event>, i: nat): nat {
    if |h| <= i + 1 then 0 else WrongSince(h[..|h| - 1], i) + if WrongConfirm(h[|h| - 1]) then 1 else 0
  }

  predicate ConfirmedSince(h: seq<Event>, i: nat) { exists j :: i < j < |h| && h[j].outcome.Confirmed? }

  /** The verification fields are those of the i-th call, and the row counts what happened since. */
  ghost predicate ExplainedBy(t: Machine, h: seq<Event>, i: nat)
    requires i < |h| && h[i].outcome.Begun?
  {
    var handle, op := h[i].outcome.handle, h[i].op;
    && op.Start?
    && op.phone == Some(handle.phone)
    && handle == Handle(handle.phone, op.now + VERIFICATION_TTL_MS, handle.nonce, true)
    && handle.nonce < t.nonce
    && t.session.phone == Some(handle.phone)
    && t.session.verification == Some(Verification(handle, handle.exp))
    && t.session.attempts == WrongSince(h, i) <= MAX_ATTEMPTS
    && t.session.status != Created
    && (t.session.status == Verified ==> ConfirmedSince(h, i))
    && (t.session.status == Started ==> !ConfirmedSince(h, i) && handle !in t.consumed)
  }

  /** How many verifications were begun. */
  function Starts(h: seq<Event>): nat {
    if h == [] then 0 else Starts(h[..|h| - 1]) + if h[|h| - 1].outcome.Begun? then 1 else 0
  }

  /** The calls that expire a session for good: one that comes after its time while its token still holds, and a confirm
      that comes after the handle's. */
  predicate Expires(e: Event, s: Session) {
    e.outcome == Refused(HandleExpired) || s.expiresAt <= e.op.now < s.tokenExp
  }

  predicate HasExpired(h: seq<Event>, s: Session) { exists k :: 0 <= k < |h| && Expires(h[k], s) }

  /** The row, read off the history. */
  ghost predicate Explained(t: Machine, h: seq<Event>) {
    && (forall c :: c in t.consumed ==> c.nonce < t.nonce)
    && t.nonce == Starts(h)
    && (t.session.status == Expired <==> HasExpired(h, t.session))
    && match LastStart(h)
       case None => t.session.status in {Created, Expired} && t.session.attempts == 0
       case Some(i) => ExplainedBy(t, h, i)
  }

  lemma Grown(h: seq<Event>, e: Event, i: nat)
    requires i < |h|
    ensures LastStart(h + [e]) == if e.outcome.Begun? then Some(|h|) else LastStart(h)
    ensures WrongSince(h + [e], i) == WrongSince(h, i) + if WrongConfirm(e) then 1 else 0
    ensures ConfirmedSince(h + [e], i) <==> ConfirmedSince(h, i) || e.outcome.Confirmed?
  {
    assert (h + [e])[..|h|] == h;
    if ConfirmedSince(h, i) {
      var j :| i < j < |h| && h[j].outcome.Confirmed?;
      assert (h + [e])[j].outcome.Confirmed?;
    }
    assert (h + [e])[|h|] == e;
  }

  lemma ExpiredGrows(h: seq<Event>, e: Event, s: Session)
    ensures HasExpired(h + [e], s) <==> HasExpired(h, s) || Expires(e, s)
    ensures Starts(h + [e]) == Starts(h) + if e.outcome.Begun? then 1 else 0
  {
    assert (h + [e])[..|h|] == h && (h + [e])[|h|] == e;
    if HasExpired(h, s) {
      var k :| 0 <= k < |h| && Expires(h[k], s);
      assert (h + [e])[k] == h[k];
    }
  }

  lemma StartExplains(code: Option<string>, t: Machine, h: seq<Event>, op: Op)
    requires Explained(t, h) && Step(code, t, op).outcome.Begun?
    ensures Explained(Step(code, t, op).machine, h + [Event(op, Step(code, t, op).outcome)])
  {
    var e := Event(op, Step(code, t, op).outcome);
    ExpiredGrows(h, e, t.session);
    assert (h + [e])[..|h|] == h && (h + [e])[|h|] == e;
    assert LastStart(h + [e]) == Some(|h|);
    assert WrongSince(h + [e], |h|) == 0 && !ConfirmedSince(h + [e], |h|);
  }

  lemma CallExplains(code: Option<string>, t: Machine, h: seq<Event>, op: Op)
    requires Explained(t, h) && !Step(code, t, op).outcome.Begun?
    ensures Explained(Step(code, t, op).machine, h + [Event(op, Step(code, t, op).outcome)])
  {
    var e := Event(op, Step(code, t, op).outcome);
    ExpiredGrows(h, e, t.session);
    assert (h + [e])[..|h|] == h;
    if LastStart(h).Some? {
      Grown(h, e, LastStart(h).value);
    }
  }

  lemma StepExplains(code: Option<string>, t: Machine, h: seq<Event>, op: Op)
    requires Explained(t, h)
    ensures Explained(Step(code, t, op).machine, h + [Event(op, Step(code, t, op).outcome)])
  {
    if Step(code, t, op).outcome.Begun? { StartExplains(code, t, h, op); } else { CallExplains(code, t, h, op); }
  }

  lemma StepKeepsTimes(code: Option<string>, t: Machine, op: Op)
    ensures Step(code, t, op).machine.session.tokenExp == t.session.tokenExp
    ensures Step(code, t, op).machine.session.expiresAt == t.session.expiresAt
  {
  }

  lemma {:induction false} HistoryExplains(code: Option<string>, tokenExp: nat, expiresAt: nat, ops: seq<Op>)
    ensures var m := Fresh(tokenExp, expiresAt); Explained(Run(code, m, ops), History(code, m, ops))
    ensures var t := Run(code, Fresh(tokenExp, expiresAt), ops);
      t.session.tokenExp == tokenExp && t.session.expiresAt == expiresAt
  {
    if ops != [] {
      var n := |ops| - 1;
      var m := Fresh(tokenExp, expiresAt);
      HistoryExplains(code, tokenExp, expiresAt, ops[..n]);
      StepExplains(code, Run(code, m, ops[..n]), History(code, m, ops[..n]), ops[n]);
      StepKeepsTimes(code, Run(code, m, ops[..n]), ops[n]);
    }
  }

  /** A handle that confirmed a session is consumed for good. */
  lemma {:induction false} ConfirmedIsConsumed(code: Option<string>, m: Machine, ops: seq<Op>, k: nat)
    requires k < |ops| && ops[k].Confirm? && History(code, m, ops)[k].outcome.Confirmed?
    ensures ops[k].handle in Run(code, m, ops).consumed
    decreases |ops|
  {
    var n := |ops| - 1;
    if k < n {
      assert History(code, m, ops)[k] == History(code, m, ops[..n])[k];
      ConfirmedIsConsumed(code, m, ops[..n], k);
      StepKeepsConsumed(code, Run(code, m, ops[..n]), ops[n]);
    } else {
      StepKeepsConsumed(code, Run(code, m, ops[..n]), ops[n]);
    }
  }

  lemma StepKeepsConsumed(code: Option<string>, m: Machine, op: Op)
    ensures m.consumed <= Step(code, m, op).machine.consumed
    ensures op.Confirm? && Step(code, m, op).outcome.Confirmed? ==> op.handle in Step(code, m, op).machine.consumed
  {
  }

  // ---- what the session guarantees

  /** What a call is told, an error with its status and code. */
  function Told(outcome: Outcome): Result<Outcome> {
    if outcome.Refused? then Err(Http(outcome.refusal)) else Ok(outcome)
  }

  /** What a start is told on a live session. The handle is signed for the phone, holds for five minutes, and is
      the next one in number. */
  function StartAnswer(h: seq<Event>, now: nat, provider: Provider, phone: Option<string>): Result<Outcome> {
    match provider
    case Truecaller => Ok(Unavailable)
    case OtherProvider => Err(HttpError(400, "CHECKOUT_PHONE_PROVIDER_INVALID"))
    case Otp =>
      if phone.None? then Err(HttpError(400, "ADDRESS_PHONE_INVALID"))
      else Ok(Begun(Handle(phone.value, now + 300_000, Starts(h), true)))
  }

  /** What a confirm is told on a live session: by what came since the last start, then by its handle, then its code. */
  function ConfirmAnswer(code: Option<string>, h: seq<Event>, now: nat, handle: Handle, otp: string): Result<Outcome> {
    var start := LastStart(h);
    if start.None? || ConfirmedSince(h, start.value) then Err(HttpError(409, "CHECKOUT_VERIFICATION_NOT_STARTED"))
    else if WrongSince(h, start.value) >= 5 then Err(HttpError(429, "CHECKOUT_VERIFICATION_ATTEMPTS_EXCEEDED"))
    else if h[start.value].op.now + 300_000 <= now then Err(HttpError(410, "CHECKOUT_VERIFICATION_HANDLE_EXPIRED"))
    else if handle != h[start.value].outcome.handle then Err(HttpError(400, "CHECKOUT_VERIFICATION_HANDLE_INVALID"))
    else if code.None? then Err(HttpError(503, "CHECKOUT_OTP_NOT_CONFIGURED"))
    else if code != Some(otp) then Err(HttpError(400, "CHECKOUT_OTP_INVALID"))
    else Ok(Confirmed)
  }

  /** What asking for a verified session is told on a live one. */
  function VerifiedAnswer(h: seq<Event>): Result<Outcome> {
    var start := LastStart(h);
    if start.None? || !ConfirmedSince(h, start.value) then Err(HttpError(401, "CHECKOUT_SESSION_NOT_VERIFIED"))
    else Ok(Context(h[start.value].outcome.handle.phone))
  }

  predicate Live(h: seq<Event>, s: Session, now: nat) { now < s.tokenExp && now < s.expiresAt && !HasExpired(h, s) }

  function Answer(code: Option<string>, h: seq<Event>, s: Session, op: Op): Result<Outcome> {
    if !Live(h, s, op.now) then Err(HttpError(401, "CHECKOUT_SESSION_EXPIRED"))
    else match op
      case Start(now, provider, phone) => StartAnswer(h, now, provider, phone)
      case Confirm(now, handle, otp) => ConfirmAnswer(code, h, now, handle, otp)
      case RequireVerified(_) => VerifiedAnswer(h)
  }

  lemma StartIsAnswered(code: Option<string>, t: Machine, h: seq<Event>, op: Op)
    requires Explained(t, h) && Live(h, t.session, op.now) && op.Start?
    ensures Told(Step(code, t, op).outcome) == Answer(code, h, t.session, op)
  {
  }

  lemma ConfirmIsAnswered(code: Option<string>, t: Machine, h: seq<Event>, op: Op)
    requires Explained(t, h) && Live(h, t.session, op.now) && op.Confirm?
    ensures Told(Step(code, t, op).outcome) == Answer(code, h, t.session, op)
  {
  }

  lemma CallIsAnswered(code: Option<string>, t: Machine, h: seq<Event>, op: Op)
    requires Explained(t, h)
    ensures Told(Step(code, t, op).outcome) == Answer(code, h, t.session, op)
  {
    if Live(h, t.session, op.now) {
      if op.Start? { StartIsAnswered(code, t, h, op); }
      if op.Confirm? { ConfirmIsAnswered(code, t, h, op); }
    }
  }

  lemma SameTimesSameAnswer(code: Option<string>, h: seq<Event>, a: Session, b: Session, op: Op)
    requires a.tokenExp == b.tokenExp && a.expiresAt == b.expiresAt
    ensures Answer(code, h, a, op) == Answer(code, h, b, op)
  {
    assert forall k :: 0 <= k < |h| ==> (Expires(h[k], a) <==> Expires(h[k], b));
  }

  /** After any history every call is told what the history of answers says. */
  lemma {:induction false} CallsAnswerFromHistory(code: Option<string>, tokenExp: nat, expiresAt: nat, ops: seq<Op>,
      op: Op)
    ensures var m := Fresh(tokenExp, expiresAt);
      Told(Step(code, Run(code, m, ops), op).outcome) == Answer(code, History(code, m, ops), m.session, op)
  {
    var m := Fresh(tokenExp, expiresAt);
    var t, h := Run(code, m, ops), History(code, m, ops);
    HistoryExplains(code, tokenExp, expiresAt, ops);
    CallIsAnswered(code, t, h, op);
    SameTimesSameAnswer(code, h, m.session, t.session, op);
  }

  /** The conditions under which a confirm goes through, in terms of the history. */
  predicate MayConfirm(code: Option<string>, h: seq<Event>, handle: Handle, otp: string, now: nat) {
    var start := LastStart(h);
    && start.Some?
    && !ConfirmedSince(h, start.value)
    && WrongSince(h, start.value) < MAX_ATTEMPTS
    && h[start.value].op.Start?
    && now < h[start.value].op.now + VERIFICATION_TTL_MS
    && handle == h[start.value].outcome.handle
    && code == Some(otp)
  }

  lemma ConfirmStepIff(code: Option<string>, t: Machine, h: seq<Event>, now: nat, handle: Handle, otp: string)
    requires Explained(t, h) && t.session.status != Expired
    ensures ConfirmStep(t, code, now, handle, otp).outcome == Confirmed <==> MayConfirm(code, h, handle, otp, now)
  {
  }

  /** After any history a confirm succeeds exactly when the session is live, a verification is pending, its handle
      is unexpired and matches, fewer than five confirms since the start were wrong, and the code is right. */
  lemma {:induction false} ConfirmIff(code: Option<string>, tokenExp: nat, expiresAt: nat, ops: seq<Op>, now: nat,
      handle: Handle, otp: string)
    ensures var m := Fresh(tokenExp, expiresAt);
      var t := Run(code, m, ops);
      Step(code, t, Confirm(now, handle, otp)).outcome == Confirmed <==>
        && now < tokenExp && now < expiresAt && t.session.status != Expired
        && MayConfirm(code, History(code, m, ops), handle, otp, now)
  {
    var m := Fresh(tokenExp, expiresAt);
    var t := Run(code, m, ops);
    HistoryExplains(code, tokenExp, expiresAt, ops);
    if t.session.status != Expired { ConfirmStepIff(code, t, History(code, m, ops), now, handle, otp); }
  }

  /** After five wrong confirms nothing confirms the session until a verification is started anew. */
  lemma {:induction false} FiveWrongConfirmsBlock(code: Option<string>, tokenExp: nat, expiresAt: nat, ops: seq<Op>,
      now: nat, handle: Handle, otp: string)
    requires var h := History(code, Fresh(tokenExp, expiresAt), ops);
      LastStart(h).Some? && WrongSince(h, LastStart(h).value) >= MAX_ATTEMPTS
    ensures Step(code, Run(code, Fresh(tokenExp, expiresAt), ops), Confirm(now, handle, otp)).outcome.Refused?
  {
    ConfirmIff(code, tokenExp, expiresAt, ops, now, handle, otp);
    HistoryExplains(code, tokenExp, expiresAt, ops);
  }

  lemma {:induction false} HistoryPrefix(code: Option<string>, m: Machine, ops: seq<Op>, k: nat)
    requires k <= |ops|
    ensures History(code, m, ops[..k]) == History(code, m, ops)[..k]
    ensures k < |ops| ==> History(code, m, ops)[k].outcome == Step(code, Run(code, m, ops[..k]), ops[k]).outcome
  {
    if k == |ops| {
      assert ops[..k] == ops;
    } else {
      var n := |ops| - 1;
      var before := History(code, m, ops[..n]);
      assert History(code, m, ops)[..n] == before;
      if k < n {
        HistoryPrefix(code, m, ops[..n], k);
        assert ops[..n][..k] == ops[..k] && ops[..n][k] == ops[k];
      } else {
        assert ops[..k] == ops[..n];
      }
    }
  }

  lemma {:induction false} PrefixCounts(h: seq<Event>, i: nat, j: nat)
    requires i < j <= |h|
    ensures WrongSince(h[..j], i) <= WrongSince(h, i)
    ensures (forall k :: i < k < |h| ==> !h[k].outcome.Begun?) && h[i].outcome.Begun? ==> LastStart(h[..j]) == Some(i)
  {
    if j < |h| {
      assert h[..|h| - 1][..j] == h[..j];
      PrefixCounts(h[..|h| - 1], i, j);
    } else {
      assert h[..j] == h;
    }
  }

  /** A verified session was started, then confirmed inside the handle's lifetime with that handle and the right
      code, after fewer than five wrong confirms; no later start replaced it, and its phone is the one started. */
  lemma {:induction false} VerifiedWasConfirmed(code: Option<string>, tokenExp: nat, expiresAt: nat, ops: seq<Op>)
    returns (i: nat, j: nat)
    requires Run(code, Fresh(tokenExp, expiresAt), ops).session.status == Verified
    ensures var m := Fresh(tokenExp, expiresAt);
      var h := History(code, m, ops);
      && i < j < |ops|
      && LastStart(h) == Some(i)
      && ops[i].Start? && ops[j].Confirm? && h[j].outcome == Confirmed
      && ops[j].handle == h[i].outcome.handle
      && ops[j].now < ops[i].now + VERIFICATION_TTL_MS
      && code == Some(ops[j].otp)
      && WrongSince(h[..j], i) < MAX_ATTEMPTS
      && ops[i].phone == Some(h[i].outcome.handle.phone)
      && Run(code, m, ops).session.phone == Some(h[i].outcome.handle.phone)
  {
    var m := Fresh(tokenExp, expiresAt);
    var h := History(code, m, ops);
    HistoryExplains(code, tokenExp, expiresAt, ops);
    i := LastStart(h).value;
    j :| i < j < |h| && h[j].outcome.Confirmed?;
    HistoryPrefix(code, m, ops, j);
    PrefixCounts(h, i, j);
    var op := ops[j];
    OnlyConfirmsConfirm(code, Run(code, m, ops[..j]), op);
    ConfirmIff(code, tokenExp, expiresAt, ops[..j], op.now, op.handle, op.otp);
  }

  lemma OnlyConfirmsConfirm(code: Option<string>, m: Machine, op: Op)
    requires Step(code, m, op).outcome.Confirmed?
    ensures op.Confirm?
  {
  }

  /** A verified context is handed out only before the session expires, and carries the phone of the latest start. */
  lemma {:induction false} ContextIsLatestPhone(code: Option<string>, tokenExp: nat, expiresAt: nat, ops: seq<Op>,
      now: nat)
    requires Step(code, Run(code, Fresh(tokenExp, expiresAt), ops), RequireVerified(now)).outcome.Context?
    ensures now < tokenExp && now < expiresAt
    ensures var m := Fresh(tokenExp, expiresAt);
      var start := LastStart(History(code, m, ops));
      && start.Some? && ops[start.value].Start?
      && ops[start.value].phone == Some(Step(code, Run(code, m, ops), RequireVerified(now)).outcome.phone)
  {
    HistoryExplains(code, tokenExp, expiresAt, ops);
    var i, j := VerifiedWasConfirmed(code, tokenExp, expiresAt, ops);
  }

  /** In every reachable state the wrong attempts lie between 0 and 5. */
  lemma {:induction false} AttemptsAreBounded(code: Option<string>, tokenExp: nat, expiresAt: nat, ops: seq<Op>)
    ensures Run(code, Fresh(tokenExp, expiresAt), ops).session.attempts <= MAX_ATTEMPTS
  {
    HistoryExplains(code, tokenExp, expiresAt, ops);
  }

  /** Expired is absorbing: nothing leaves it, and every call is refused. */
  lemma {:induction false} ExpiredIsAbsorbing(code: Option<string>, m: Machine, more: seq<Op>, op: Op)
    requires m.session.status == Expired
    ensures Run(code, m, more).session == m.session
    ensures Step(code, Run(code, m, more), op).outcome == Refused(SessionExpired)
  {
    if more != [] { ExpiredIsAbsorbing(code, m, more[..|more| - 1], op); }
  }
}
