/**
 * Every run of one contract: links, OTP requests, checks, signing and voiding, serialised by the event lock.
 *
 * `log` records, in order, what succeeded and every wrong code that was evaluated.
 */
module Signing {
  import opened Common
  import opened Contracts

  datatype Entry =
    | Linked(at: int, token: Token)
    | Requested(at: int, token: Token, code: nat)
    | WrongCode(at: int, exhausted: bool)
    | Verified(at: int, code: nat, proof: Proof)
    | SignedWith(at: int, proof: Proof)
    | WasVoided(at: int)

  datatype Deal = Deal(contract: Contract, data: EventData, now: int, log: seq<Entry>)

  datatype Step =
    | Tick(seconds: nat)
    | EventChanges(data: EventData)
    | DoRelink(render: Option<string>, token: Token)
    | DoRenderDraft(path: string)
    | DoRequest(token: Token, code: nat)
    | DoVerify(token: Token, code: nat)
    | DoSign(token: Token, presented: Option<Proof>, seal: Option<string>)
    | DoVoid(reasonGiven: bool)

  /** Tokens are fresh, and a proof that decodes is one that was handed out. */
  ghost predicate Enabled(d: Deal, s: Step) {
    match s
    case DoRelink(_, token) => forall i :: 0 <= i < |d.log| && d.log[i].Linked? ==> d.log[i].token != token
    case DoSign(_, presented, _) =>
      presented.Some? ==> exists i :: 0 <= i < |d.log| && d.log[i].Verified? && d.log[i].proof == presented.value
    case _ => true
  }

  function Record(d: Deal, c: Contract, e: Entry): Deal {
    d.(contract := c, log := d.log + [e])
  }

  function Apply(policy: Policy, d: Deal, s: Step): Deal {
    match s
    case Tick(seconds) => d.(now := d.now + seconds)
    case EventChanges(data) => d.(data := data)
    case DoRelink(render, token) =>
      (match Relink(policy, d.contract, d.data, render, token, d.now)
       case Success(c) => Record(d, c, Linked(d.now, token))
       case Failure(_) => d)
    case DoRenderDraft(path) =>
      (match RenderDraft(d.contract, d.data, path)
       case Success(c) => d.(contract := c)
       case Failure(_) => d)
    case DoRequest(token, code) =>
      (match RequestOtp(policy, d.contract, d.data, token, code, d.now)
       case Success(c) => Record(d, c, Requested(d.now, token, code))
       case Failure(_) => d)
    case DoVerify(token, code) =>
      var (c, answer) := VerifyOtp(policy, d.contract, d.data, token, code, d.now);
      if answer.Success? then Record(d, c, Verified(d.now, code, answer.value))
      else if c != d.contract then Record(d, c, WrongCode(d.now, c.otp.None?))
      else d
    case DoSign(token, presented, seal) =>
      (match Sign(policy, d.contract, d.data, token, presented, seal, d.now)
       case Success(c) => Record(d, c, SignedWith(d.now, presented.value)).(data := d.data.(status := Scheduled))
       case Failure(_) => d)
    case DoVoid(reasonGiven) =>
      (match Void(d.contract, d.data.status, reasonGiven, d.data.started)
       case Success(c) => Record(d, c, WasVoided(d.now))
       case Failure(_) => d)
  }

  /** A contract just created: a draft, or issued by the manual booking without a link yet. */
  ghost predicate Initial(d: Deal) {
    && d.log == []
    && (d.contract == NewContract(d.contract.id, d.contract.event)
        || (d.contract.pdf.Some?
            && d.contract == NewContract(d.contract.id, d.contract.event).(status := Issued, pdf := d.contract.pdf)))
  }

  ghost predicate Run(policy: Policy, ds: seq<Deal>, steps: seq<Step>) {
    && |ds| == |steps| + 1 && Initial(ds[0])
    && forall i :: 0 <= i < |steps| ==> Enabled(ds[i], steps[i]) && ds[i + 1] == Apply(policy, ds[i], steps[i])
  }

  // ---------------------------------------------------------------- reading the log

  /** Where the latest OTP request stands in the log, or -1. */
  function LastRequest(log: seq<Entry>): (i: int)
    ensures -1 <= i < |log|
    ensures i >= 0 ==> log[i].Requested?
    ensures forall j :: i < j < |log| ==> !log[j].Requested?
  {
    if log == [] then -1
    else if log[|log| - 1].Requested? then |log| - 1
    else LastRequest(log[..|log| - 1])
  }

  lemma LastRequestOfExtended(log: seq<Entry>, e: Entry)
    ensures LastRequest(log + [e]) == if e.Requested? then |log| else LastRequest(log)
  {
    assert (log + [e])[..|log|] == log;
  }

  /** Entries that leave a verified code usable. */
  predicate Harmless(e: Entry) {
    e.Verified? || (e.WrongCode? && !e.exhausted)
  }

  ghost predicate HarmlessAfter(log: seq<Entry>, i: int) {
    forall j :: i < j < |log| && 0 <= j ==> Harmless(log[j])
  }

  // ---------------------------------------------------------------- invariant

  /** A live OTP hash is the hash of the latest request, for the live link, untouched since. */
  ghost predicate LiveOtpIsLatest(policy: Policy, d: Deal) {
    var c := d.contract;
    c.otp.Some? ==>
      var i := LastRequest(d.log);
      && i >= 0 && HarmlessAfter(d.log, i)
      && c.link == Some(d.log[i].token)
      && c.otp.value == HashOf(c, d.log[i].code)
      && c.otpExpiresAt == Some(d.log[i].at + policy.otpSeconds)
  }

  ghost predicate LastRequestRemembered(d: Deal) {
    var i := LastRequest(d.log);
    && (d.contract.lastRequestedAt == if i >= 0 then Some(d.log[i].at) else None)
    && (i >= 0 ==> d.log[i].at <= d.now)
  }

  ghost predicate RequestsSpaced(log: seq<Entry>) {
    forall i, j :: 0 <= i < j < |log| && log[i].Requested? && log[j].Requested? ==>
      log[i].at + REQUEST_SPACING <= log[j].at
  }

  /** A proof names the request that was latest when it was handed out, and the code sent with it. */
  ghost predicate ProofsNameTheirRequest(log: seq<Entry>) {
    forall j :: 0 <= j < |log| && log[j].Verified? ==>
      var i := LastRequest(log[..j]);
      && i >= 0 && log[j].code == log[i].code
      && log[j].proof.link == Some(log[i].token)
      && log[j].proof.otp.requestedAt == Some(log[i].at)
      && HarmlessAfter(log[..j], i)
  }

  ghost predicate Inv(policy: Policy, d: Deal) {
    && LiveOtpIsLatest(policy, d) && LastRequestRemembered(d)
    && RequestsSpaced(d.log) && ProofsNameTheirRequest(d.log)
  }

  lemma ExtendingKeepsProofs(log: seq<Entry>, e: Entry)
    requires ProofsNameTheirRequest(log)
    requires e.Verified? ==>
      var i := LastRequest(log);
      && i >= 0 && e.code == log[i].code && e.proof.link == Some(log[i].token)
      && e.proof.otp.requestedAt == Some(log[i].at) && HarmlessAfter(log, i)
    ensures ProofsNameTheirRequest(log + [e])
  {
    var longer := log + [e];
    forall j | 0 <= j < |longer| && longer[j].Verified?
      ensures var i := LastRequest(longer[..j]);
              && i >= 0 && longer[j].code == longer[i].code
              && longer[j].proof.link == Some(longer[i].token)
              && longer[j].proof.otp.requestedAt == Some(longer[i].at)
              && HarmlessAfter(longer[..j], i)
    {
      assert longer[..j] == if j < |log| then log[..j] else log;
    }
  }

  lemma RequestedOtp(policy: Policy, c: Contract, data: EventData, token: Token, code: nat, now: int)
    requires RequestOtp(policy, c, data, token, code, now).Success?
    ensures var c' := RequestOtp(policy, c, data, token, code, now).value;
      && c'.link == Some(token) && c'.otp == Some(HashOf(c', code))
      && c'.otpExpiresAt == Some(now + policy.otpSeconds) && c'.lastRequestedAt == Some(now)
      && (c.lastRequestedAt.Some? ==> c.lastRequestedAt.value + REQUEST_SPACING <= now)
  {
  }

  lemma AnotherRequestIsSpaced(log: seq<Entry>, e: Entry)
    requires RequestsSpaced(log) && e.Requested?
    requires var i := LastRequest(log); i >= 0 ==> log[i].at + REQUEST_SPACING <= e.at
    ensures RequestsSpaced(log + [e])
  {
    forall j | 0 <= j < |log| && log[j].Requested?
      ensures log[j].at + REQUEST_SPACING <= e.at
    {
      assert j <= LastRequest(log);
    }
  }

  /** Recording a request whose OTP the contract now holds. */
  lemma RecordedRequestKeepsInv(policy: Policy, d: Deal, c: Contract, entry: Entry)
    requires Inv(policy, d) && entry.Requested? && entry.at == d.now
    requires c.link == Some(entry.token) && c.otp == Some(HashOf(c, entry.code))
    requires c.otpExpiresAt == Some(d.now + policy.otpSeconds) && c.lastRequestedAt == Some(d.now)
    requires d.contract.lastRequestedAt.Some? ==> d.contract.lastRequestedAt.value + REQUEST_SPACING <= d.now
    ensures Inv(policy, Record(d, c, entry))
  {
    LastRequestOfExtended(d.log, entry);
    AnotherRequestIsSpaced(d.log, entry);
    ExtendingKeepsProofs(d.log, entry);
  }

  lemma RequestKeepsInv(policy: Policy, d: Deal, token: Token, code: nat)
    requires Inv(policy, d)
    ensures Inv(policy, Apply(policy, d, DoRequest(token, code)))
  {
    var outcome := RequestOtp(policy, d.contract, d.data, token, code, d.now);
    if outcome.Success? {
      RequestedOtp(policy, d.contract, d.data, token, code, d.now);
      RecordedRequestKeepsInv(policy, d, outcome.value, Requested(d.now, token, code));
    }
  }

  /** What a checked code means for the contract: a right one leaves it as it was and proves the live OTP, a wrong
      one at most ends it. */
  lemma CheckedOtp(policy: Policy, c: Contract, data: EventData, token: Token, code: nat, now: int)
    ensures var (c', answer) := VerifyOtp(policy, c, data, token, code, now);
      && c'.(attempts := c.attempts, otp := c.otp) == c && (c'.otp == c.otp || c'.otp.None?)
      && (answer.Success? ==> c' == c && c.otp == Some(HashOf(c, code))
                              && answer.value.link == c.link && answer.value.otp == c.otp.value)
  {
  }

  /** A recorded check keeps what is known of the live OTP, if one is left. */
  lemma CheckKeepsOtp(policy: Policy, d: Deal, c: Contract, entry: Entry)
    requires LiveOtpIsLatest(policy, d) && LastRequestRemembered(d) && !entry.Requested?
    requires c.(attempts := d.contract.attempts, otp := d.contract.otp) == d.contract
    requires c.otp.None? || (c.otp == d.contract.otp && Harmless(entry))
    ensures LiveOtpIsLatest(policy, Record(d, c, entry)) && LastRequestRemembered(Record(d, c, entry))
  {
    LastRequestOfExtended(d.log, entry);
  }

  lemma RightCodeKeepsInv(policy: Policy, d: Deal, entry: Entry)
    requires Inv(policy, d) && entry.Verified? && d.contract.otp == Some(HashOf(d.contract, entry.code))
    requires entry.proof.link == d.contract.link && entry.proof.otp == d.contract.otp.value
    ensures Inv(policy, Record(d, d.contract, entry))
  {
    CheckKeepsOtp(policy, d, d.contract, entry);
    ExtendingKeepsProofs(d.log, entry);
  }

  lemma WrongCodeKeepsInv(policy: Policy, d: Deal, c: Contract, entry: Entry)
    requires Inv(policy, d) && entry.WrongCode? && entry.exhausted == c.otp.None?
    requires c.(attempts := d.contract.attempts, otp := d.contract.otp) == d.contract
    requires c.otp.None? || c.otp == d.contract.otp
    ensures Inv(policy, Record(d, c, entry))
  {
    CheckKeepsOtp(policy, d, c, entry);
    ExtendingKeepsProofs(d.log, entry);
  }

  lemma VerifyKeepsInv(policy: Policy, d: Deal, token: Token, code: nat)
    requires Inv(policy, d)
    ensures Inv(policy, Apply(policy, d, DoVerify(token, code)))
  {
    var (c, answer) := VerifyOtp(policy, d.contract, d.data, token, code, d.now);
    CheckedOtp(policy, d.contract, d.data, token, code, d.now);
    if answer.Success? {
      RightCodeKeepsInv(policy, d, Verified(d.now, code, answer.value));
    } else if c != d.contract {
      WrongCodeKeepsInv(policy, d, c, WrongCode(d.now, c.otp.None?));
    }
  }

  /** A step that records nothing but the end of the live OTP. */
  lemma ClosingKeepsInv(policy: Policy, d: Deal, d': Deal, entry: Entry)
    requires Inv(policy, d) && !entry.Requested? && !entry.Verified?
    requires d'.log == d.log + [entry] && d'.now == d.now
    requires d'.contract.otp == None && d'.contract.lastRequestedAt == d.contract.lastRequestedAt
    ensures Inv(policy, d')
  {
    LastRequestOfExtended(d.log, entry);
    ExtendingKeepsProofs(d.log, entry);
  }

  lemma RelinkKeepsInv(policy: Policy, d: Deal, s: Step)
    requires Inv(policy, d) && s.DoRelink?
    ensures Inv(policy, Apply(policy, d, s))
  {
    var d' := Apply(policy, d, s);
    if d' != d { ClosingKeepsInv(policy, d, d', Linked(d.now, s.token)); }
  }

  lemma SignKeepsInv(policy: Policy, d: Deal, s: Step)
    requires Inv(policy, d) && s.DoSign?
    ensures Inv(policy, Apply(policy, d, s))
  {
    var d' := Apply(policy, d, s);
    if d' != d { ClosingKeepsInv(policy, d, d', SignedWith(d.now, s.presented.value)); }
  }

  lemma VoidKeepsInv(policy: Policy, d: Deal, s: Step)
    requires Inv(policy, d) && s.DoVoid?
    ensures Inv(policy, Apply(policy, d, s))
  {
    var d' := Apply(policy, d, s);
    if d' != d { ClosingKeepsInv(policy, d, d', WasVoided(d.now)); }
  }

  lemma DraftChangesThePdf(c: Contract, data: EventData, path: string)
    requires RenderDraft(c, data, path).Success?
    ensures RenderDraft(c, data, path).value == c.(pdf := Some(path))
  {
  }

  lemma SameOtpSameInv(policy: Policy, d: Deal, d': Deal)
    requires Inv(policy, d) && d'.log == d.log && d'.now >= d.now
    requires d'.contract.(pdf := d.contract.pdf) == d.contract
    ensures Inv(policy, d')
  {
  }

  lemma QuietStepsKeepInv(policy: Policy, d: Deal, s: Step)
    requires Inv(policy, d) && (s.Tick? || s.EventChanges? || s.DoRenderDraft?)
    ensures Inv(policy, Apply(policy, d, s))
  {
    if s.DoRenderDraft? && RenderDraft(d.contract, d.data, s.path).Success? {
      DraftChangesThePdf(d.contract, d.data, s.path);
    }
    SameOtpSameInv(policy, d, Apply(policy, d, s));
  }

  lemma StepKeepsInv(policy: Policy, d: Deal, s: Step)
    requires Inv(policy, d)
    ensures Inv(policy, Apply(policy, d, s))
  {
    match s
    case DoRequest(token, code) => RequestKeepsInv(policy, d, token, code);
    case DoVerify(token, code) => VerifyKeepsInv(policy, d, token, code);
    case DoRelink(_, _) => RelinkKeepsInv(policy, d, s);
    case DoSign(_, _, _) => SignKeepsInv(policy, d, s);
    case DoVoid(_) => VoidKeepsInv(policy, d, s);
    case _ => QuietStepsKeepInv(policy, d, s);
  }

  lemma {:induction false} EveryRunKeepsInv(policy: Policy, ds: seq<Deal>, steps: seq<Step>, k: nat)
    requires Run(policy, ds, steps) && k < |ds|
    ensures Inv(policy, ds[k])
  {
    if k > 0 {
      EveryRunKeepsInv(policy, ds, steps, k - 1);
      StepKeepsInv(policy, ds[k - 1], steps[k - 1]);
    }
  }

  // ---------------------------------------------------------------- signing takes the latest OTP

  /** In every run a contract becomes signed only with a proof whose every verification came after the
      latest OTP request, made on the link being used; nothing since that request rotated the link,
      voided the contract or exhausted the attempts; and neither the code nor the proof has expired. */
  lemma SignedOnlyWithTheLatestOtp(policy: Policy, ds: seq<Deal>, steps: seq<Step>, k: nat,
                                   token: Token, presented: Option<Proof>, seal: Option<string>)
    requires Run(policy, ds, steps) && k < |ds| && Enabled(ds[k], DoSign(token, presented, seal))
    requires Sign(policy, ds[k].contract, ds[k].data, token, presented, seal, ds[k].now).Success?
    ensures presented.Some?
    ensures var log, i := ds[k].log, LastRequest(ds[k].log);
            && i >= 0 && log[i].token == token && HarmlessAfter(log, i)
            && ds[k].now < log[i].at + policy.otpSeconds && ds[k].now < presented.value.expiresAt
            && (exists j ::
                  i < j < |log| && log[j].Verified? && log[j].proof == presented.value && log[j].code == log[i].code)
            && (forall j :: 0 <= j < |log| && log[j].Verified? && log[j].proof == presented.value ==> i < j)
  {
    EveryRunKeepsInv(policy, ds, steps, k);
    var d := ds[k];
    var log, i := d.log, LastRequest(d.log);
    forall j | 0 <= j < |log| && log[j].Verified? && log[j].proof == presented.value
      ensures i < j && log[j].code == log[i].code
    {
      var r := LastRequest(log[..j]);
      assert log[r].at == log[i].at;
      assert r == i;
    }
  }

  /** So any later link rotation, OTP request, exhaustion of attempts or voiding makes every earlier proof
      unusable, and so does the expiry of the code. */
  lemma EarlierProofsAreUseless(policy: Policy, ds: seq<Deal>, steps: seq<Step>, k: nat, j: nat, m: nat,
                                token: Token, seal: Option<string>)
    requires Run(policy, ds, steps) && k < |ds| && j < |ds[k].log| && ds[k].log[j].Verified?
    requires || (j < m < |ds[k].log| && !Harmless(ds[k].log[m]))
             || (LastRequest(ds[k].log) >= 0 && ds[k].now >= ds[k].log[LastRequest(ds[k].log)].at + policy.otpSeconds)
    ensures Sign(policy, ds[k].contract, ds[k].data, token, Some(ds[k].log[j].proof), seal, ds[k].now).Failure?
  {
    var presented := Some(ds[k].log[j].proof);
    if Sign(policy, ds[k].contract, ds[k].data, token, presented, seal, ds[k].now).Success? {
      SignedOnlyWithTheLatestOtp(policy, ds, steps, k, token, presented, seal);
    }
  }

  // ---------------------------------------------------------------- the request limits

  /** The times of the successful OTP requests, oldest first. */
  function RequestTimes(log: seq<Entry>): seq<int> {
    if log == [] then []
    else
      var before := RequestTimes(log[..|log| - 1]);
      if log[|log| - 1].Requested? then before + [log[|log| - 1].at] else before
  }

  function WrongCodes(log: seq<Entry>): nat {
    if log == [] then 0
    else WrongCodes(log[..|log| - 1]) + (if log[|log| - 1].WrongCode? then 1 else 0)
  }

  /** Where request `k` falls in its own window: 0 opens one. */
  function Place(ts: seq<int>, k: nat): (p: nat)
    requires k < |ts|
    ensures p <= k
  {
    if k == 0 then 0
    else
      var p := Place(ts, k - 1);
      if ts[k] >= ts[k - 1 - p] + REQUEST_WINDOW then 0 else p + 1
  }

  ghost predicate Limited(ts: seq<int>) {
    && (forall i :: 0 < i < |ts| ==> ts[i - 1] + REQUEST_SPACING <= ts[i])
    && (forall i :: 0 <= i < |ts| ==> Place(ts, i) < REQUESTS_PER_WINDOW)
  }

  ghost predicate CountersFollow(c: Contract, ts: seq<int>) {
    if ts == [] then c.lastRequestedAt == None && c.windowStartedAt == None
    else
      var last := |ts| - 1;
      && c.lastRequestedAt == Some(ts[last])
      && c.requestCount == Place(ts, last) + 1
      && c.windowStartedAt == Some(ts[last - Place(ts, last)])
  }

  /** The attempts of so many requests together. */
  function Allowance(attempts: nat, requests: nat): nat {
    if requests == 0 then 0 else Allowance(attempts, requests - 1) + attempts
  }

  lemma {:induction false} AllowanceIsTheProduct(attempts: nat, requests: nat)
    ensures Allowance(attempts, requests) == attempts * requests
  {
    if requests > 0 {
      AllowanceIsTheProduct(attempts, requests - 1);
      assert attempts * requests == attempts * (requests - 1) + attempts;
    }
  }

  /** Wrong codes spent: those of earlier requests, plus the attempts on the live one. */
  predicate WrongCodesBounded(wrong: nat, requests: nat, c: Contract, max: nat) {
    if c.otp.Some?
    then requests >= 1 && wrong <= Allowance(max, requests - 1) + c.attempts && c.attempts < max
    else wrong <= Allowance(max, requests)
  }

  ghost predicate LimitsInv(policy: Policy, d: Deal) {
    && Limited(RequestTimes(d.log)) && CountersFollow(d.contract, RequestTimes(d.log))
    && WrongCodesBounded(WrongCodes(d.log), |RequestTimes(d.log)|, d.contract, policy.maxAttempts)
  }

  lemma {:induction false} PlaceOfPrefix(ts: seq<int>, t: int, k: nat)
    requires k < |ts|
    ensures Place(ts + [t], k) == Place(ts, k)
  {
    if k > 0 {
      PlaceOfPrefix(ts, t, k - 1);
    }
  }

  lemma LogGrowth(log: seq<Entry>, e: Entry)
    ensures RequestTimes(log + [e]) == if e.Requested? then RequestTimes(log) + [e.at] else RequestTimes(log)
    ensures WrongCodes(log + [e]) == WrongCodes(log) + (if e.WrongCode? then 1 else 0)
  {
    assert (log + [e])[..|log|] == log;
  }

  lemma PlaceOfNewest(ts: seq<int>, t: int)
    requires ts != []
    ensures var last := |ts| - 1;
            Place(ts + [t], |ts|) == if t >= ts[last - Place(ts, last)] + REQUEST_WINDOW then 0 else Place(ts, last) + 1
  {
    PlaceOfPrefix(ts, t, |ts| - 1);
  }

  lemma AppendKeepsLimited(ts: seq<int>, t: int)
    requires Limited(ts) && (ts != [] ==> ts[|ts| - 1] + REQUEST_SPACING <= t)
    requires Place(ts + [t], |ts|) < REQUESTS_PER_WINDOW
    ensures Limited(ts + [t])
  {
    var longer := ts + [t];
    forall i | 0 <= i < |longer|
      ensures Place(longer, i) < REQUESTS_PER_WINDOW
    {
      if i < |ts| {
        PlaceOfPrefix(ts, t, i);
        assert Place(ts, i) < REQUESTS_PER_WINDOW;
      }
    }
    forall i | 0 < i < |longer|
      ensures longer[i - 1] + REQUEST_SPACING <= longer[i]
    {
      if i < |ts| {
        assert ts[i - 1] + REQUEST_SPACING <= ts[i];
      }
    }
  }

  lemma GrantedWindow(last: Option<int>, start: Option<int>, count: nat, now: int)
    requires RateLimit(last, start, count, now).Some?
    ensures last.Some? ==> last.value + REQUEST_SPACING <= now
    ensures var (began, before) := RateLimit(last, start, count, now).value;
            && before < REQUESTS_PER_WINDOW
            && if start.None? || now >= start.value + REQUEST_WINDOW then began == now && before == 0
               else began == start.value && before == count
  {
  }

  lemma AnotherRequestIsLimited(c: Contract, ts: seq<int>, now: int)
    requires Limited(ts) && CountersFollow(c, ts)
    requires RateLimit(c.lastRequestedAt, c.windowStartedAt, c.requestCount, now).Some?
    ensures Limited(ts + [now])
    ensures var (start, count) := RateLimit(c.lastRequestedAt, c.windowStartedAt, c.requestCount, now).value;
            && count == Place(ts + [now], |ts|) && start == (ts + [now])[|ts| - count]
  {
    GrantedWindow(c.lastRequestedAt, c.windowStartedAt, c.requestCount, now);
    var place := Place(ts + [now], |ts|);
    if ts == [] {
      assert place == 0;
    } else {
      PlaceOfNewest(ts, now);
      if place > 0 {
        assert (ts + [now])[|ts| - place] == ts[|ts| - 1 - Place(ts, |ts| - 1)];
      }
    }
    AppendKeepsLimited(ts, now);
  }

  /** The counters admit what keeps the times limited. */
  lemma LimitedIsGranted(c: Contract, ts: seq<int>, t: int)
    requires CountersFollow(c, ts) && Limited(ts + [t])
    ensures RateLimit(c.lastRequestedAt, c.windowStartedAt, c.requestCount, t).Some?
  {
    var longer := ts + [t];
    assert Place(longer, |ts|) < REQUESTS_PER_WINDOW;
    if ts != [] {
      PlaceOfNewest(ts, t);
      assert longer[|ts| - 1] + REQUEST_SPACING <= longer[|ts|];
    }
  }

  lemma AttemptsFit(wrong: nat, requests: nat, c: Contract, max: nat)
    requires WrongCodesBounded(wrong, requests, c, max)
    ensures wrong <= Allowance(max, requests)
  {
  }

  lemma RequestKeepsLimits(policy: Policy, d: Deal, token: Token, code: nat)
    requires LimitsInv(policy, d) && policy.maxAttempts >= 1
    ensures LimitsInv(policy, Apply(policy, d, DoRequest(token, code)))
  {
    var outcome := RequestOtp(policy, d.contract, d.data, token, code, d.now);
    if outcome.Success? {
      AnotherRequestIsLimited(d.contract, RequestTimes(d.log), d.now);
      LogGrowth(d.log, Requested(d.now, token, code));
      AttemptsFit(WrongCodes(d.log), |RequestTimes(d.log)|, d.contract, policy.maxAttempts);
      RequestCounts(policy, d.contract, d.data, token, code, d.now, RequestTimes(d.log));
    }
  }

  /** A granted request restarts the attempts and moves the counters along with the times. */
  lemma RequestCounts(policy: Policy, c: Contract, data: EventData, token: Token, code: nat, now: int, ts: seq<int>)
    requires RequestOtp(policy, c, data, token, code, now).Success? && Limited(ts) && CountersFollow(c, ts)
    ensures CountersFollow(RequestOtp(policy, c, data, token, code, now).value, ts + [now])
    ensures RequestOtp(policy, c, data, token, code, now).value.otp.Some?
    ensures RequestOtp(policy, c, data, token, code, now).value.attempts == 0
  {
    AnotherRequestIsLimited(c, ts, now);
  }

  /** Checking a code never moves the counters; a wrong one takes an attempt, and the last one ends the OTP. */
  lemma VerifyCounts(policy: Policy, c: Contract, data: EventData, token: Token, code: nat, now: int)
    ensures var (c', answer) := VerifyOtp(policy, c, data, token, code, now);
      && c'.lastRequestedAt == c.lastRequestedAt && c'.windowStartedAt == c.windowStartedAt
          && c'.requestCount == c.requestCount
      && (answer.Success? ==> c' == c)
      && (c' != c ==> c.otp.Some? && c'.attempts == c.attempts + 1
                      && (if c'.attempts >= policy.maxAttempts then c'.otp.None? else c'.otp == c.otp))
  {
  }

  lemma WrongCodeStaysBounded(wrong: nat, requests: nat, c: Contract, c': Contract, max: nat)
    requires WrongCodesBounded(wrong, requests, c, max) && c.otp.Some? && c'.attempts == c.attempts + 1
    requires if c'.attempts >= max then c'.otp.None? else c'.otp == c.otp
    ensures WrongCodesBounded(wrong + 1, requests, c', max)
  {
  }

  lemma CheckedCodeKeepsLimits(policy: Policy, d: Deal, c: Contract, entry: Entry)
    requires LimitsInv(policy, d) && !entry.Requested?
    requires c.lastRequestedAt == d.contract.lastRequestedAt && c.windowStartedAt == d.contract.windowStartedAt
    requires c.requestCount == d.contract.requestCount
    requires WrongCodesBounded(WrongCodes(d.log) + (if entry.WrongCode? then 1
        else 0), |RequestTimes(d.log)|, c, policy.maxAttempts)
    ensures LimitsInv(policy, Record(d, c, entry))
  {
    LogGrowth(d.log, entry);
  }

  lemma VerifyKeepsLimits(policy: Policy, d: Deal, token: Token, code: nat)
    requires LimitsInv(policy, d)
    ensures LimitsInv(policy, Apply(policy, d, DoVerify(token, code)))
  {
    var (c, answer) := VerifyOtp(policy, d.contract, d.data, token, code, d.now);
    VerifyCounts(policy, d.contract, d.data, token, code, d.now);
    if answer.Success? {
      CheckedCodeKeepsLimits(policy, d, c, Verified(d.now, code, answer.value));
    } else if c != d.contract {
      WrongCodeStaysBounded(WrongCodes(d.log), |RequestTimes(d.log)|, d.contract, c, policy.maxAttempts);
      CheckedCodeKeepsLimits(policy, d, c, WrongCode(d.now, c.otp.None?));
    }
  }

  /** A step that ends the live OTP leaves the counters of the limits alone. */
  lemma ClosingKeepsLimits(policy: Policy, d: Deal, d': Deal, entry: Entry)
    requires LimitsInv(policy, d) && !entry.Requested? && !entry.WrongCode?
    requires d'.log == d.log + [entry] && d'.contract.otp == None
    requires d'.contract.lastRequestedAt == d.contract.lastRequestedAt
    requires d'.contract.windowStartedAt == d.contract.windowStartedAt
    requires d'.contract.requestCount == d.contract.requestCount
    ensures LimitsInv(policy, d')
  {
    LogGrowth(d.log, entry);
    AttemptsFit(WrongCodes(d.log), |RequestTimes(d.log)|, d.contract, policy.maxAttempts);
  }

  lemma RelinkKeepsLimits(policy: Policy, d: Deal, s: Step)
    requires LimitsInv(policy, d) && s.DoRelink?
    ensures LimitsInv(policy, Apply(policy, d, s))
  {
    var d' := Apply(policy, d, s);
    if d' != d { ClosingKeepsLimits(policy, d, d', Linked(d.now, s.token)); }
  }

  lemma SignKeepsLimits(policy: Policy, d: Deal, s: Step)
    requires LimitsInv(policy, d) && s.DoSign?
    ensures LimitsInv(policy, Apply(policy, d, s))
  {
    var d' := Apply(policy, d, s);
    if d' != d { ClosingKeepsLimits(policy, d, d', SignedWith(d.now, s.presented.value)); }
  }

  lemma VoidKeepsLimits(policy: Policy, d: Deal, s: Step)
    requires LimitsInv(policy, d) && s.DoVoid?
    ensures LimitsInv(policy, Apply(policy, d, s))
  {
    var d' := Apply(policy, d, s);
    if d' != d { ClosingKeepsLimits(policy, d, d', WasVoided(d.now)); }
  }

  lemma SameCountersSameLimits(policy: Policy, d: Deal, d': Deal)
    requires LimitsInv(policy, d) && d'.log == d.log && d'.contract.(pdf := d.contract.pdf) == d.contract
    ensures LimitsInv(policy, d')
  {
  }

  /** A step that records nothing and leaves the counters alone. */
  lemma QuietStepsKeepLimits(policy: Policy, d: Deal, s: Step)
    requires LimitsInv(policy, d) && (s.Tick? || s.EventChanges? || s.DoRenderDraft?)
    ensures LimitsInv(policy, Apply(policy, d, s))
  {
    if s.DoRenderDraft? && RenderDraft(d.contract, d.data, s.path).Success? {
      DraftChangesThePdf(d.contract, d.data, s.path);
    }
    SameCountersSameLimits(policy, d, Apply(policy, d, s));
  }

  lemma StepKeepsLimits(policy: Policy, d: Deal, s: Step)
    requires LimitsInv(policy, d) && policy.maxAttempts >= 1
    ensures LimitsInv(policy, Apply(policy, d, s))
  {
    match s
    case DoRequest(token, code) => RequestKeepsLimits(policy, d, token, code);
    case DoVerify(token, code) => VerifyKeepsLimits(policy, d, token, code);
    case DoRelink(_, _) => RelinkKeepsLimits(policy, d, s);
    case DoSign(_, _, _) => SignKeepsLimits(policy, d, s);
    case DoVoid(_) => VoidKeepsLimits(policy, d, s);
    case _ => QuietStepsKeepLimits(policy, d, s);
  }

  lemma {:induction false} EveryRunKeepsLimits(policy: Policy, ds: seq<Deal>, steps: seq<Step>, k: nat)
    requires Run(policy, ds, steps) && k < |ds| && policy.maxAttempts >= 1
    ensures LimitsInv(policy, ds[k])
  {
    if k > 0 {
      EveryRunKeepsLimits(policy, ds, steps, k - 1);
      StepKeepsLimits(policy, ds[k - 1], steps[k - 1]);
    }
  }

  // ---------------------------------------------------------------- what the limits mean

  lemma {:induction false} SpacedApart(ts: seq<int>, i: nat, j: nat)
    requires Limited(ts) && i <= j < |ts|
    ensures ts[i] + REQUEST_SPACING * (j - i) <= ts[j]
  {
    if i < j {
      SpacedApart(ts, i, j - 1);
    }
  }

  /** A request either comes next in the window of the one before, or opens another a whole window later. */
  lemma ContinuesOrOpens(ts: seq<int>, k: nat)
    requires 0 < k < |ts|
    ensures Place(ts, k) == 0 || Place(ts, k) == Place(ts, k - 1) + 1
    ensures Place(ts, k) == 0 ==> ts[k] >= ts[k - 1 - Place(ts, k - 1)] + REQUEST_WINDOW
  {
  }

  /** The opener after request `k`: as many requests later as its window still admits, and a whole
      window after the opener of `k`'s own. */
  lemma {:induction false} NextOpener(ts: seq<int>, k: nat) returns (o: nat)
    requires Limited(ts) && k < |ts| && k + 3 - Place(ts, k) < |ts|
    ensures k < o <= k + 3 - Place(ts, k) && Place(ts, o) == 0
    ensures ts[o] >= ts[k - Place(ts, k)] + REQUEST_WINDOW
    decreases 3 - Place(ts, k)
  {
    var p := Place(ts, k);
    assert p < REQUESTS_PER_WINDOW;
    ContinuesOrOpens(ts, k + 1);
    o := k + 1;
    if Place(ts, o) != 0 {
      assert Place(ts, o) < REQUESTS_PER_WINDOW;
      o := NextOpener(ts, o);
    }
  }

  /** Six consecutive requests never fit in a window's length. */
  lemma SixRequestsTakeTenMinutes(ts: seq<int>, i: nat)
    requires Limited(ts) && i + 5 < |ts|
    ensures ts[i + 5] >= ts[i] + REQUEST_WINDOW
  {
    var o := NextOpener(ts, i);
    if Place(ts, i) == 0 {
      SpacedApart(ts, o, i + 5);
    } else {
      var q := NextOpener(ts, o);
      SpacedApart(ts, i, o);
      SpacedApart(ts, q, i + 5);
    }
  }

  /** How many of the times fall in `[from, from + REQUEST_WINDOW)`. */
  function InWindow(ts: seq<int>, from: int): nat {
    if ts == [] then 0
    else InWindow(ts[..|ts| - 1], from) + (if from <= ts[|ts| - 1] < from + REQUEST_WINDOW then 1 else 0)
  }

  lemma LimitedPrefix(ts: seq<int>)
    requires Limited(ts) && ts != []
    ensures Limited(ts[..|ts| - 1])
  {
    var shorter, t := ts[..|ts| - 1], ts[|ts| - 1];
    assert ts == shorter + [t];
    forall i | 0 <= i < |shorter|
      ensures Place(shorter, i) < REQUESTS_PER_WINDOW
    {
      PlaceOfPrefix(shorter, t, i);
    }
  }

  /** The times in a window are the last ones before its end. */
  lemma {:induction false} WindowHoldsTheLastOnes(ts: seq<int>, from: int, n: nat)
    requires Limited(ts) && ts != [] && ts[|ts| - 1] < from + REQUEST_WINDOW && InWindow(ts, from) > n
    ensures n < |ts| && from <= ts[|ts| - 1 - n]
  {
    LimitedPrefix(ts);
    var shorter := ts[..|ts| - 1];
    if from > ts[|ts| - 1] {
      NothingLater(ts, from);
      assert false;
    } else if n > 0 {
      NonEmptyWindow(shorter, from);
      WindowHoldsTheLastOnes(shorter, from, n - 1);
    }
  }

  lemma NonEmptyWindow(ts: seq<int>, from: int)
    requires InWindow(ts, from) > 0
    ensures ts != []
  {
  }

  lemma {:induction false} NothingLater(ts: seq<int>, from: int)
    requires Limited(ts) && (ts != [] ==> ts[|ts| - 1] < from)
    ensures InWindow(ts, from) == 0
  {
    if ts != [] {
      LimitedPrefix(ts);
      NothingLater(ts[..|ts| - 1], from);
    }
  }

  lemma {:induction false} AtMostFiveInAnyTenMinutes(ts: seq<int>, from: int)
    requires Limited(ts)
    ensures InWindow(ts, from) <= 5
  {
    if ts != [] {
      LimitedPrefix(ts);
      AtMostFiveInAnyTenMinutes(ts[..|ts| - 1], from);
      if from <= ts[|ts| - 1] < from + REQUEST_WINDOW && InWindow(ts, from) > 5 {
        WindowHoldsTheLastOnes(ts, from, 5);
        SixRequestsTakeTenMinutes(ts, |ts| - 6);
      }
    }
  }

  lemma OpenerComesBefore(ts: seq<int>, o: nat, n: nat)
    requires Limited(ts) && o < |ts| && n < |ts| && ts[o] <= ts[n]
    ensures o <= n
  {
    if n < o {
      SpacedApart(ts, n, o);
    }
  }

  lemma FourthIsOutside(ts: seq<int>, o: nat)
    requires Limited(ts) && o < |ts| && Place(ts, o) == 0 && ts[|ts| - 1] < ts[o] + REQUEST_WINDOW
    ensures InWindow(ts, ts[o]) <= 3
  {
    var last := |ts| - 1;
    if InWindow(ts, ts[o]) > 3 {
      WindowHoldsTheLastOnes(ts, ts[o], 3);
      OpenerComesBefore(ts, o, last - 3);
      var next := NextOpener(ts, o);
      SpacedApart(ts, next, last);
    }
  }

  /** The announced three do hold for every ten minutes that start with the request opening a window. */
  lemma {:induction false} ThreeFromAnOpener(ts: seq<int>, o: nat)
    requires Limited(ts) && o < |ts| && Place(ts, o) == 0
    ensures InWindow(ts, ts[o]) <= 3
  {
    LimitedPrefix(ts);
    var shorter, last := ts[..|ts| - 1], |ts| - 1;
    if o == last {
      NothingLater(shorter, ts[o]);
    } else {
      assert ts == shorter + [ts[last]];
      PlaceOfPrefix(shorter, ts[last], o);
      ThreeFromAnOpener(shorter, o);
      if ts[last] < ts[o] + REQUEST_WINDOW {
        FourthIsOutside(ts, o);
      }
    }
  }

  /** In every run on one contract: successful OTP requests are at least a minute apart, any ten minutes
      hold at most five of them whatever links were rotated in between, and the wrong codes evaluated
      never exceed the attempts of all requests together. */
  lemma RequestsAndGuessesAreLimited(policy: Policy, ds: seq<Deal>, steps: seq<Step>, k: nat, from: int)
    requires Run(policy, ds, steps) && k < |ds| && policy.maxAttempts >= 1
    ensures var ts := RequestTimes(ds[k].log);
            && (forall i :: 0 < i < |ts| ==> ts[i - 1] + REQUEST_SPACING <= ts[i])
            && InWindow(ts, from) <= 5
            && WrongCodes(ds[k].log) <= policy.maxAttempts * |ts|
  {
    EveryRunKeepsLimits(policy, ds, steps, k);
    var log := ds[k].log;
    AtMostFiveInAnyTenMinutes(RequestTimes(log), from);
    AttemptsFit(WrongCodes(log), |RequestTimes(log)|, ds[k].contract, policy.maxAttempts);
    AllowanceIsTheProduct(policy.maxAttempts, |RequestTimes(log)|);
  }
}
