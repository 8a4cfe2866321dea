/**
 * When a code is sent, checked and used: the exact conditions in any run, read off the log of what happened, the
 * clock and the event, including the expiry of the link.
 */
module SigningConditions {
  import opened Common
  import opened Contracts
  import opened Signing

  // ---------------------------------------------------------------- what is live in the log

  /** Where the link in force was published, or -1 when signing or voiding took it away. */
  function LiveLink(log: seq<Entry>): (i: int)
    ensures -1 <= i < |log|
    ensures i >= 0 ==> log[i].Linked?
  {
    if log == [] then -1
    else
      match log[|log| - 1]
      case Linked(_, _) => |log| - 1
      case SignedWith(_, _) => -1
      case WasVoided(_) => -1
      case _ => LiveLink(log[..|log| - 1])
  }

  /** Where the OTP in force was requested, or -1 when something has ended it since. */
  function LiveRequest(log: seq<Entry>): (i: int)
    ensures -1 <= i < |log|
    ensures i >= 0 ==> log[i].Requested? && i == LastRequest(log) && HarmlessAfter(log, i)
  {
    if log == [] then -1
    else if log[|log| - 1].Requested? then |log| - 1
    else if Harmless(log[|log| - 1]) then LiveRequest(log[..|log| - 1])
    else -1
  }

  /** The wrong codes evaluated since the latest request or rotation. */
  function WrongSince(log: seq<Entry>): nat {
    if log == [] then 0
    else
      match log[|log| - 1]
      case WrongCode(_, _) => WrongSince(log[..|log| - 1]) + 1
      case Verified(_, _, _) => WrongSince(log[..|log| - 1])
      case SignedWith(_, _) => WrongSince(log[..|log| - 1])
      case _ => 0
  }

  ghost predicate EverSigned(log: seq<Entry>) {
    exists j :: 0 <= j < |log| && log[j].SignedWith?
  }

  ghost predicate EverVoided(log: seq<Entry>) {
    exists j :: 0 <= j < |log| && log[j].WasVoided?
  }

  lemma EverOfExtended(log: seq<Entry>, e: Entry)
    ensures EverSigned(log + [e]) <==> EverSigned(log) || e.SignedWith?
    ensures EverVoided(log + [e]) <==> EverVoided(log) || e.WasVoided?
  {
    assert (log + [e])[|log|] == e;
    assert forall j :: 0 <= j < |log| ==> (log + [e])[j] == log[j];
  }

  lemma LiveOfExtended(log: seq<Entry>, e: Entry)
    ensures LiveLink(log + [e]) ==
            if e.Linked? then |log| else if e.SignedWith? || e.WasVoided? then -1 else LiveLink(log)
    ensures WrongSince(log + [e]) ==
            if e.WrongCode? then WrongSince(log) + 1 else if e.Verified? || e.SignedWith? then WrongSince(log) else 0
    ensures LiveRequest(log + [e]) == if e.Requested? then |log| else if Harmless(e) then LiveRequest(log) else -1
  {
    assert (log + [e])[..|log|] == log;
  }

  // ---------------------------------------------------------------- invariant

  /** The contract holds the link in force and its expiry, and only while issued with a document. */
  ghost predicate LinkFollows(policy: Policy, c: Contract, log: seq<Entry>) {
    var l := LiveLink(log);
    if l >= 0
    then c.link == Some(log[l].token) && c.linkExpiresAt == Some(log[l].at + policy.linkSeconds) && c.status == Issued
    else c.link == None && c.linkExpiresAt == None
  }

  /** The contract holds the OTP in force, requested on the link in force and with attempts left. */
  ghost predicate OtpFollows(policy: Policy, c: Contract, log: seq<Entry>) {
    var r := LiveRequest(log);
    if r >= 0
    then
      && c.otp == Some(HashOf(c, log[r].code)) && c.otpExpiresAt == Some(log[r].at + policy.otpSeconds)
      && c.link == Some(log[r].token) && c.attempts < policy.maxAttempts
    else c.otp == None
  }

  /** The proofs handed out for the OTP in force. */
  ghost predicate ProofsFollow(policy: Policy, c: Contract, log: seq<Entry>) {
    LiveRequest(log) >= 0 && c.otp.Some? ==>
      forall j :: LiveRequest(log) < j < |log| && log[j].Verified? ==>
        log[j].proof == Proof(c.id, c.link, c.otp.value, log[j].at, log[j].at + policy.proofSeconds)
  }

  ghost predicate StatusFollows(c: Contract, log: seq<Entry>) {
    && (c.status == Voided <==> EverVoided(log))
    && (c.status == Signed <==> EverSigned(log) && !EverVoided(log))
  }

  ghost predicate Past(log: seq<Entry>, now: int) {
    forall j :: 0 <= j < |log| ==> log[j].at <= now
  }

  ghost predicate Follows(policy: Policy, d: Deal) {
    && LinkFollows(policy, d.contract, d.log) && OtpFollows(policy, d.contract, d.log)
    && ProofsFollow(policy, d.contract, d.log) && Past(d.log, d.now)
    && (d.contract.status == Issued ==> d.contract.pdf.Some?)
    && StatusFollows(d.contract, d.log) && d.contract.attempts == WrongSince(d.log)
  }

  // ---------------------------------------------------------------- each step

  /** A recorded request that left the contract with its own OTP. */
  lemma RequestFollows(policy: Policy, d: Deal, c: Contract, entry: Entry)
    requires Follows(policy, d) && entry.Requested? && entry.at == d.now && d.contract.link == Some(entry.token)
    requires c.link == d.contract.link && c.linkExpiresAt == d.contract.linkExpiresAt
    requires c.status == d.contract.status && c.pdf == d.contract.pdf
    requires c.otp == Some(HashOf(c, entry.code)) && c.otpExpiresAt == Some(d.now + policy.otpSeconds)
    requires c.attempts == 0 && policy.maxAttempts >= 1
    ensures Follows(policy, Record(d, c, entry))
  {
    EverOfExtended(d.log, entry);
    LiveOfExtended(d.log, entry);
  }

  /** A recorded check, right or wrong, that changed nothing but attempts and OTP. */
  lemma CheckFollows(policy: Policy, d: Deal, c: Contract, entry: Entry)
    requires Follows(policy, d) && entry.at == d.now && (entry.Verified? || entry.WrongCode?)
    requires c.(attempts := d.contract.attempts, otp := d.contract.otp) == d.contract
    requires if entry.WrongCode? && entry.exhausted then c.otp.None?
             else c.otp == d.contract.otp && (c.otp.Some? ==> c.attempts < policy.maxAttempts)
    requires entry.Verified? && c.otp.Some? ==>
               entry.proof == Proof(c.id, c.link, c.otp.value, d.now, d.now + policy.proofSeconds)
    requires c.attempts == d.contract.attempts + if entry.WrongCode? then 1 else 0
    ensures Follows(policy, Record(d, c, entry))
  {
    EverOfExtended(d.log, entry);
    LiveOfExtended(d.log, entry);
  }

  /** A recorded rotation, signature or voiding. */
  lemma ClosingFollows(policy: Policy, d: Deal, c: Contract, entry: Entry)
    requires Follows(policy, d) && entry.at == d.now && (entry.Linked? || entry.SignedWith? || entry.WasVoided?)
    requires c.otp == None && (c.status == Issued ==> c.pdf.Some?)
    requires if entry.Linked?
             then c.status == Issued && c.link == Some(entry.token)
                  && c.linkExpiresAt == Some(d.now + policy.linkSeconds)
             else c.link == None && c.linkExpiresAt == None
    requires c.attempts == if entry.SignedWith? then d.contract.attempts else 0
    requires if entry.WasVoided? then c.status == Voided
             else d.contract.status != Voided && (if entry.SignedWith? then c.status == Signed
                                                  else d.contract.status != Signed)
    ensures Follows(policy, Record(d, c, entry))
  {
    EverOfExtended(d.log, entry);
    LiveOfExtended(d.log, entry);
  }

  lemma GrantedRequest(policy: Policy, c: Contract, data: EventData, token: Token, code: nat, now: int)
    requires RequestOtp(policy, c, data, token, code, now).Success?
    ensures var c' := RequestOtp(policy, c, data, token, code, now).value;
      && c.link == Some(token) && c'.link == c.link && c'.linkExpiresAt == c.linkExpiresAt && c'.status == c.status
      && c'.pdf == c.pdf && c'.otp == Some(HashOf(c', code)) && c'.attempts == 0
      && c'.otpExpiresAt == Some(now + policy.otpSeconds)
  {
  }

  lemma RequestStepFollows(policy: Policy, d: Deal, token: Token, code: nat)
    requires Follows(policy, d) && policy.maxAttempts >= 1
    ensures Follows(policy, Apply(policy, d, DoRequest(token, code)))
  {
    var outcome := RequestOtp(policy, d.contract, d.data, token, code, d.now);
    if outcome.Success? {
      GrantedRequest(policy, d.contract, d.data, token, code, d.now);
      RequestFollows(policy, d, outcome.value, Requested(d.now, token, code));
    }
  }

  lemma VerifyStepFollows(policy: Policy, d: Deal, token: Token, code: nat)
    requires Follows(policy, d)
    ensures Follows(policy, Apply(policy, d, DoVerify(token, code)))
  {
    var (c, answer) := VerifyOtp(policy, d.contract, d.data, token, code, d.now);
    CheckedOtp(policy, d.contract, d.data, token, code, d.now);
    VerifyCounts(policy, d.contract, d.data, token, code, d.now);
    CheckedProof(policy, d.contract, d.data, token, code, d.now);
    if answer.Success? {
      CheckFollows(policy, d, c, Verified(d.now, code, answer.value));
    } else if c != d.contract {
      CheckFollows(policy, d, c, WrongCode(d.now, c.otp.None?));
    }
  }

  lemma CheckedProof(policy: Policy, c: Contract, data: EventData, token: Token, code: nat, now: int)
    ensures var answer := VerifyOtp(policy, c, data, token, code, now).1;
      answer.Success? ==>
        c.otp.Some? && c.attempts < policy.maxAttempts
        && answer.value == Proof(c.id, c.link, c.otp.value, now, now + policy.proofSeconds)
  {
  }

  lemma RelinkedContract(policy: Policy, c: Contract, data: EventData, render: Option<string>, token: Token, now: int)
    requires Relink(policy, c, data, render, token, now).Success?
    ensures var c' := Relink(policy, c, data, render, token, now).value;
      && c'.status == Issued && c'.link == Some(token) && c'.linkExpiresAt == Some(now + policy.linkSeconds)
      && c'.otp == None && (c.status == Issued && c.pdf.Some? ==> c'.pdf.Some?)
      && (render.Some? ==> c'.pdf == render) && (render.None? ==> c.status == Issued)
      && c'.attempts == 0 && c.status !in {Signed, Voided}
  {
  }

  lemma RelinkStepFollows(policy: Policy, d: Deal, s: Step)
    requires Follows(policy, d) && s.DoRelink?
    ensures Follows(policy, Apply(policy, d, s))
  {
    var outcome := Relink(policy, d.contract, d.data, s.render, s.token, d.now);
    if outcome.Success? {
      RelinkedContract(policy, d.contract, d.data, s.render, s.token, d.now);
      ClosingFollows(policy, d, outcome.value, Linked(d.now, s.token));
    }
  }

  lemma SignedContract(policy: Policy, c: Contract, data: EventData, token: Token, presented: Option<Proof>,
                       seal: Option<string>, now: int)
    requires Sign(policy, c, data, token, presented, seal, now).Success?
    ensures var c' := Sign(policy, c, data, token, presented, seal, now).value;
      && c'.status == Signed && c'.link == None && c'.linkExpiresAt == None && c'.otp == None
      && c'.attempts == c.attempts && c.status == Issued
  {
  }

  lemma SignStepFollows(policy: Policy, d: Deal, s: Step)
    requires Follows(policy, d) && s.DoSign?
    ensures Follows(policy, Apply(policy, d, s))
  {
    var outcome := Sign(policy, d.contract, d.data, s.token, s.presented, s.seal, d.now);
    if outcome.Success? {
      SignedContract(policy, d.contract, d.data, s.token, s.presented, s.seal, d.now);
      var entry := SignedWith(d.now, s.presented.value);
      ClosingFollows(policy, d, outcome.value, entry);
      assert Apply(policy, d, s) == Record(d, outcome.value, entry).(data := d.data.(status := Scheduled));
    }
  }

  lemma VoidStepFollows(policy: Policy, d: Deal, s: Step)
    requires Follows(policy, d) && s.DoVoid?
    ensures Follows(policy, Apply(policy, d, s))
  {
    var outcome := Void(d.contract, d.data.status, s.reasonGiven, d.data.started);
    if outcome.Success? {
      ClosingFollows(policy, d, outcome.value, WasVoided(d.now));
    }
  }

  lemma QuietStepFollows(policy: Policy, d: Deal, s: Step)
    requires Follows(policy, d) && (s.Tick? || s.EventChanges? || s.DoRenderDraft?)
    ensures Follows(policy, Apply(policy, d, s))
  {
    if s.DoRenderDraft? && RenderDraft(d.contract, d.data, s.path).Success? {
      DraftChangesThePdf(d.contract, d.data, s.path);
    }
  }

  lemma StepFollows(policy: Policy, d: Deal, s: Step)
    requires Follows(policy, d) && policy.maxAttempts >= 1
    ensures Follows(policy, Apply(policy, d, s))
  {
    match s
    case DoRequest(token, code) => RequestStepFollows(policy, d, token, code);
    case DoVerify(token, code) => VerifyStepFollows(policy, d, token, code);
    case DoRelink(_, _) => RelinkStepFollows(policy, d, s);
    case DoSign(_, _, _) => SignStepFollows(policy, d, s);
    case DoVoid(_) => VoidStepFollows(policy, d, s);
    case _ => QuietStepFollows(policy, d, s);
  }

  lemma {:induction false} EveryRunFollows(policy: Policy, ds: seq<Deal>, steps: seq<Step>, k: nat)
    requires Run(policy, ds, steps) && k < |ds| && policy.maxAttempts >= 1
    ensures Follows(policy, ds[k])
  {
    if k > 0 {
      EveryRunFollows(policy, ds, steps, k - 1);
      StepFollows(policy, ds[k - 1], steps[k - 1]);
    }
  }

  // ---------------------------------------------------------------- the exact conditions

  /** The token is of the link in force, which has not expired, and the event waits for its signature. */
  ghost predicate LinkOpens(policy: Policy, d: Deal, token: Token) {
    var l := LiveLink(d.log);
    && l >= 0 && d.log[l].token == token && d.now < d.log[l].at + policy.linkSeconds
    && d.data.status == AwaitingSignature && !d.data.started
  }

  /** The OTP in force has not expired. */
  ghost predicate CodeLives(policy: Policy, d: Deal) {
    var r := LiveRequest(d.log);
    r >= 0 && d.now < d.log[r].at + policy.otpSeconds
  }

  /** The proof was handed out for the OTP in force and has not expired. */
  ghost predicate ProvenFor(policy: Policy, d: Deal, proof: Proof) {
    exists j :: LiveRequest(d.log) < j < |d.log| && d.log[j].Verified? && d.log[j].proof == proof
                && d.now < d.log[j].at + policy.proofSeconds
  }

  /** Why a link does not open: none such in force, an event that does not wait for its signature, or its expiry. */
  ghost function LinkRefusal(policy: Policy, d: Deal, token: Token): Option<ContractError> {
    if LiveLink(d.log) < 0 || d.log[LiveLink(d.log)].token != token then Some(UnknownLink)
    else if d.data.status != AwaitingSignature || d.data.started then Some(InvalidState)
    else if LinkOpens(policy, d, token) then None else Some(LinkExpired)
  }

  lemma LinksAreRefused(policy: Policy, d: Deal, token: Token)
    requires Follows(policy, d)
    ensures ResolveError(d.contract, d.data, token, d.now) == LinkRefusal(policy, d, token)
    ensures LinkRefusal(policy, d, token) == None <==> LinkOpens(policy, d, token)
  {
  }

  /** In every run a code is sent exactly when the link opens and the limits on requests admit another now; the link is
      looked at first. */
  lemma RequestsExactlyWhen(policy: Policy, ds: seq<Deal>, steps: seq<Step>, k: nat, token: Token, code: nat)
    requires Run(policy, ds, steps) && k < |ds| && policy.maxAttempts >= 1
    ensures var answer := RequestOtp(policy, ds[k].contract, ds[k].data, token, code, ds[k].now);
            && (answer.Success? <==>
                  LinkOpens(policy, ds[k], token) && Limited(RequestTimes(ds[k].log) + [ds[k].now]))
            && (answer.Failure? ==>
                  answer.error == if LinkOpens(policy, ds[k], token) then RateLimited
                                  else LinkRefusal(policy, ds[k], token).value)
  {
    EveryRunFollows(policy, ds, steps, k);
    EveryRunKeepsLimits(policy, ds, steps, k);
    var d, ts := ds[k], RequestTimes(ds[k].log);
    LinksAreRefused(policy, d, token);
    if RateLimit(d.contract.lastRequestedAt, d.contract.windowStartedAt, d.contract.requestCount, d.now).Some? {
      AnotherRequestIsLimited(d.contract, ts, d.now);
    } else if Limited(ts + [d.now]) {
      LimitedIsGranted(d.contract, ts, d.now);
    }
  }

  /** A code is accepted exactly when the link opens and it is the one sent with the OTP in force, not expired. Any
      other code takes an attempt while the OTP lives; as many wrong codes as there are attempts exhaust it. */
  lemma VerifiesExactlyWhen(policy: Policy, ds: seq<Deal>, steps: seq<Step>, k: nat, token: Token, code: nat)
    requires Run(policy, ds, steps) && k < |ds| && policy.maxAttempts >= 1
    ensures var d, wrong := ds[k], WrongSince(ds[k].log);
            var (c, answer) := VerifyOtp(policy, d.contract, d.data, token, code, d.now);
            var right := CodeLives(policy, d) && d.log[LiveRequest(d.log)].code == code;
            && (answer.Success? <==> LinkOpens(policy, d, token) && right)
            && (answer.Success? ==>
                  answer.value == Proof(d.contract.id, Some(token), d.contract.otp.value, d.now,
                                        d.now + policy.proofSeconds))
            && (answer.Failure? ==>
                  answer.error == if !LinkOpens(policy, d, token) then LinkRefusal(policy, d, token).value
                                  else if wrong >= policy.maxAttempts then AttemptsExceeded
                                  else if !CodeLives(policy, d) then OtpExpired
                                  else if wrong + 1 >= policy.maxAttempts then AttemptsExceeded else WrongOtp)
            && c == (if LinkOpens(policy, d, token) && CodeLives(policy, d) && !right
                     then d.contract.(attempts := wrong + 1,
                                      otp := if wrong + 1 >= policy.maxAttempts then None else d.contract.otp)
                     else d.contract)
  {
    EveryRunFollows(policy, ds, steps, k);
    LinksAreRefused(policy, ds[k], token);
  }

  /** A proof that was handed out holds exactly when that was for the OTP in force and it has not expired. */
  lemma ProofsHoldExactlyWhen(policy: Policy, ds: seq<Deal>, steps: seq<Step>, k: nat, presented: Option<Proof>)
    requires Run(policy, ds, steps) && k < |ds| && policy.maxAttempts >= 1
    requires presented.Some? ==> exists j :: 0 <= j < |ds[k].log| && ds[k].log[j].Verified?
                                             && ds[k].log[j].proof == presented.value
    ensures ProofHolds(policy, ds[k].contract, presented, ds[k].now) <==>
            LiveRequest(ds[k].log) >= 0 && presented.Some? && ProvenFor(policy, ds[k], presented.value)
  {
    EveryRunFollows(policy, ds, steps, k);
    EveryRunKeepsInv(policy, ds, steps, k);
    var d, log, r := ds[k], ds[k].log, LiveRequest(ds[k].log);
    if ProofHolds(policy, d.contract, presented, d.now) {
      var j :| 0 <= j < |log| && log[j].Verified? && log[j].proof == presented.value;
      var i := LastRequest(log[..j]);
      assert log[i].at == log[r].at;
      assert i == r;
    }
  }

  /** A contract is signed exactly when the link opens, the proof presented was handed out for the OTP in force,
      neither has expired, the advance is paid and the document is sealed; they are looked at in that order. */
  lemma SignsExactlyWhen(policy: Policy, ds: seq<Deal>, steps: seq<Step>, k: nat, token: Token,
                         presented: Option<Proof>, seal: Option<string>)
    requires Run(policy, ds, steps) && k < |ds| && policy.maxAttempts >= 1
    requires Enabled(ds[k], DoSign(token, presented, seal))
    ensures var d := ds[k];
            var answer := Sign(policy, d.contract, d.data, token, presented, seal, d.now);
            var proven := LiveRequest(d.log) >= 0 && presented.Some? && ProvenFor(policy, d, presented.value);
            var paid := d.data.advance >= d.data.requiredAdvance && d.data.advance > 0;
            && (answer.Success? <==>
                  LinkOpens(policy, d, token) && proven && CodeLives(policy, d) && paid && seal.Some?)
            && (answer.Success? ==>
                  answer.value == d.contract.(status := Signed, signedAt := Some(d.now), sealedPdf := seal,
                                              link := None, linkExpiresAt := None, otp := None, otpExpiresAt := None))
            && (answer.Failure? ==>
                  answer.error == if !LinkOpens(policy, d, token) then LinkRefusal(policy, d, token).value
                                  else if !proven then WrongOtp
                                  else if !CodeLives(policy, d) then OtpExpired
                                  else if !paid then InvalidState else SealFailed)
  {
    EveryRunFollows(policy, ds, steps, k);
    LinksAreRefused(policy, ds[k], token);
    ProofsHoldExactlyWhen(policy, ds, steps, k, presented);
  }

  // ---------------------------------------------------------------- management

  /** A contract is voided exactly with a reason, once, before its event is under way, and after signing only when the
      event was cancelled; its link and OTP go with it. */
  lemma VoidsExactlyWhen(policy: Policy, ds: seq<Deal>, steps: seq<Step>, k: nat, reasonGiven: bool)
    requires Run(policy, ds, steps) && k < |ds| && policy.maxAttempts >= 1
    ensures var d := ds[k];
            var answer := Void(d.contract, d.data.status, reasonGiven, d.data.started);
            && (answer.Success? <==>
                  && reasonGiven && !EverVoided(d.log) && !d.data.started
                  && d.data.status !in {InProgress, Extended, Settled}
                  && (EverSigned(d.log) ==> d.data.status == Cancelled))
            && (answer.Success? ==>
                  answer.value == d.contract.(status := Voided, link := None, linkExpiresAt := None, otp := None,
                                              otpExpiresAt := None, attempts := 0))
            && (answer.Failure? ==> answer.error == if reasonGiven then InvalidState else Invalid)
  {
    EveryRunFollows(policy, ds, steps, k);
  }

  /** A link is published exactly while the contract is neither signed nor voided and its advance is paid: on a document
      rendered with it, or on the one of a contract already issued. Only the link, its expiry, the OTP and, if asked,
      the document change; the limits on requests do not. */
  lemma LinksArePublishedExactlyWhen(policy: Policy, ds: seq<Deal>, steps: seq<Step>, k: nat, render: Option<string>,
                                     token: Token)
    requires Run(policy, ds, steps) && k < |ds| && policy.maxAttempts >= 1
    ensures var d := ds[k];
            var answer := Relink(policy, d.contract, d.data, render, token, d.now);
            && (answer.Success? <==>
                  && !EverSigned(d.log) && !EverVoided(d.log)
                  && (match render case Some(path) => path != "" case None => d.contract.status == Issued)
                  && d.data.status == AwaitingSignature && d.data.total == d.data.services + d.data.mobility
                  && 0 < d.data.advance <= d.data.total && d.data.requiredAdvance <= d.data.advance)
            && (answer.Success? ==>
                  answer.value == d.contract.(
                    status := Issued, pdf := if render.Some? then render else d.contract.pdf, link := Some(token),
                    linkExpiresAt := Some(d.now + policy.linkSeconds), otp := None, otpExpiresAt := None,
                    attempts := 0))
  {
    EveryRunFollows(policy, ds, steps, k);
  }

  /** A draft stores another document exactly while it is one and its advance is paid, and nothing else changes. */
  lemma DraftsAreRenderedExactlyWhen(c: Contract, data: EventData, path: string)
    ensures RenderDraft(c, data, path).Success? <==>
              && c.status == Draft && path != ""
              && data.status == AwaitingSignature && data.total == data.services + data.mobility
              && 0 < data.advance <= data.total && data.requiredAdvance <= data.advance
    ensures RenderDraft(c, data, path).Success? ==> RenderDraft(c, data, path).value == c.(pdf := Some(path))
  {
  }
}
