/**
 * All contracts of all events: issuing, the manual booking's insert, resending, regenerating, voiding and
 * signing, in any order. Each operation holds the lock of its event, so operations are atomic here.
 */
module ContractRegistry {
  import opened Common
  import opened Contracts

  /** `lastToken` is the most recently generated token of each event; `used` holds all of them. */
  datatype Registry = Registry(
    contracts: map<ContractId, Contract>,
    events: map<EventId, EventData>,
    lastToken: map<EventId, Token>,
    used: set<Token>,
    now: int)

  datatype Step =
    | Tick(seconds: nat)
    | EventChanges(event: EventId, data: EventData)
    | BookManually(event: EventId, data: EventData, id: ContractId, pdf: Option<string>)
    | IssueForEvent(event: EventId, newId: ContractId, path: string, token: Token)
    | Resend(id: ContractId, token: Token)
    | Regenerate(id: ContractId, path: string, token: Token)
    | VoidContract(id: ContractId, reasonGiven: bool)
    | AskOtp(token: Token, code: nat)
    | CheckOtp(token: Token, code: nat)
    | SignContract(token: Token, presented: Option<Proof>, seal: Option<string>)

  /** Generated tokens and identifiers are new, and contracts are managed for events that exist. */
  ghost predicate Enabled(r: Registry, s: Step) {
    match s
    case Tick(_) => true
    case EventChanges(event, _) => event in r.events
    case BookManually(event, _, id, _) => event !in r.events && id !in r.contracts
    case IssueForEvent(event, newId, _, token) => event in r.events && newId !in r.contracts && token !in r.used
    case Resend(id, token) => Known(r, id) && token !in r.used
    case Regenerate(id, _, token) => Known(r, id) && token !in r.used
    case VoidContract(id, _) => Known(r, id)
    case AskOtp(_, _) => true
    case CheckOtp(_, _) => true
    case SignContract(_, _, _) => true
  }

  predicate Known(r: Registry, id: ContractId) {
    id in r.contracts && r.contracts[id].event in r.events
  }

  ghost predicate ActiveFor(r: Registry, event: EventId, id: ContractId) {
    id in r.contracts && r.contracts[id].event == event && r.contracts[id].status != Voided
  }

  /** The query for the event's contract that is not voided. */
  ghost function ActiveContract(r: Registry, event: EventId): Option<ContractId> {
    if exists id :: ActiveFor(r, event, id) then var id :| ActiveFor(r, event, id); Some(id) else None
  }

  ghost predicate HasLink(r: Registry, token: Token, id: ContractId) {
    Known(r, id) && r.contracts[id].link == Some(token)
  }

  ghost function FindToken(r: Registry, token: Token): Option<ContractId> {
    if exists id :: HasLink(r, token, id) then var id :| HasLink(r, token, id); Some(id) else None
  }

  function Put(r: Registry, c: Contract): Registry {
    r.(contracts := r.contracts[c.id := c])
  }

  /** Saves a contract whose link was just replaced by `token`. */
  function PutLinked(r: Registry, c: Contract, token: Token): Registry {
    Put(r, c).(lastToken := r.lastToken[c.event := token], used := r.used + {token})
  }

  ghost function Apply(policy: Policy, r: Registry, s: Step): Registry
    requires Enabled(r, s)
  {
    match s
    case Tick(seconds) => r.(now := r.now + seconds)
    case EventChanges(event, data) => r.(events := r.events[event := data])
    case BookManually(event, data, id, pdf) =>
      var c := NewContract(id, event).(pdf := pdf, status := if pdf.Some? then Issued else Draft);
      Put(r.(events := r.events[event := data]), c)
    case IssueForEvent(event, newId, path, token) => ApplyIssue(policy, r, event, newId, path, token)
    case Resend(id, token) =>
      var c := r.contracts[id];
      (match Relink(policy, c, r.events[c.event], None, token, r.now)
       case Success(c') => PutLinked(r, c', token)
       case Failure(_) => r)
    case Regenerate(id, path, token) =>
      var c := r.contracts[id];
      if c.status == Draft then
        (match RenderDraft(c, r.events[c.event], path)
         case Success(c') => Put(r, c')
         case Failure(_) => r)
      else
        (match Relink(policy, c, r.events[c.event], Some(path), token, r.now)
         case Success(c') => PutLinked(r, c', token)
         case Failure(_) => r)
    case VoidContract(id, reasonGiven) =>
      var c := r.contracts[id];
      (match Void(c, r.events[c.event].status, reasonGiven, r.events[c.event].started)
       case Success(c') => Put(r, c')
       case Failure(_) => r)
    case AskOtp(token, code) =>
      (match FindToken(r, token)
       case Some(id) =>
         (match RequestOtp(policy, r.contracts[id], r.events[r.contracts[id].event], token, code, r.now)
          case Success(c') => Put(r, c')
          case Failure(_) => r)
       case None => r)
    case CheckOtp(token, code) =>
      (match FindToken(r, token)
       case Some(id) =>
         Put(r, VerifyOtp(policy, r.contracts[id], r.events[r.contracts[id].event], token, code, r.now).0)
       case None => r)
    case SignContract(token, presented, seal) =>
      (match FindToken(r, token)
       case Some(id) =>
         var event := r.contracts[id].event;
         (match Sign(policy, r.contracts[id], r.events[event], token, presented, seal, r.now)
          case Success(c') => Put(r, c').(events := r.events[event := r.events[event].(status := Scheduled)])
          case Failure(_) => r)
       case None => r)
  }

  /** Issuing is idempotent: a signed contract, or an issued one with a link, is returned as it is. */
  ghost function ApplyIssue(policy: Policy, r: Registry, event: EventId, newId: ContractId, path: string,
                            token: Token): Registry
    requires event in r.events
  {
    if !Paid(r.events[event]) then r
    else
      var active := ActiveContract(r, event);
      var c := if active.Some? then r.contracts[active.value] else NewContract(newId, event);
      if active.Some? && (c.status == Signed || (c.status == Issued && c.link.Some?)) then r
      else
        var render := if c.status != Issued || c.pdf.None? then Some(path) else None;
        match Relink(policy, c, r.events[event], render, token, r.now)
        case Success(c') => PutLinked(r, c', token)
        case Failure(_) => r
  }

  ghost predicate Initial(r: Registry) {
    r.contracts == map[] && r.events == map[] && r.lastToken == map[] && r.used == {}
  }

  ghost predicate Run(policy: Policy, rs: seq<Registry>, steps: seq<Step>) {
    && |rs| == |steps| + 1 && Initial(rs[0])
    && forall i :: 0 <= i < |steps| ==> Enabled(rs[i], steps[i]) && rs[i + 1] == Apply(policy, rs[i], steps[i])
  }

  // ---------------------------------------------------------------- invariant

  ghost predicate OneActivePerEvent(r: Registry) {
    forall a, b ::
      (&& a in r.contracts && b in r.contracts && r.contracts[a].event == r.contracts[b].event
       && r.contracts[a].status != Voided && r.contracts[b].status != Voided)
      ==> a == b
  }

  /** A live link belongs to an issued contract and is the event's newest token. */
  ghost predicate LinkOk(r: Registry, c: Contract) {
    c.link.Some? ==>
      c.status == Issued && c.event in r.lastToken && r.lastToken[c.event] == c.link.value
  }

  ghost predicate TokensOk(r: Registry) {
    && (forall e :: e in r.lastToken ==> r.lastToken[e] in r.used)
    && (forall e1, e2 :: e1 in r.lastToken && e2 in r.lastToken && e1 != e2 ==> r.lastToken[e1] != r.lastToken[e2])
  }

  ghost predicate Inv(r: Registry) {
    && (forall id :: id in r.contracts ==>
          r.contracts[id].id == id && r.contracts[id].event in r.events && LinkOk(r, r.contracts[id]))
    && OneActivePerEvent(r) && TokensOk(r)
  }

  /** Saving a contract keeps the invariant when it takes nobody else's place. */
  lemma PutKeepsInv(r: Registry, c: Contract)
    requires Inv(r) && c.event in r.events && LinkOk(r, c)
    requires c.id in r.contracts ==> r.contracts[c.id].event == c.event
    requires c.status != Voided ==>
      forall id :: id in r.contracts && id != c.id && r.contracts[id].event == c.event ==>
          r.contracts[id].status == Voided
    ensures Inv(Put(r, c))
  {
  }

  lemma PutLinkedKeepsInv(r: Registry, c: Contract, token: Token)
    requires Inv(r) && c.event in r.events && token !in r.used && c.status == Issued && c.link == Some(token)
    requires c.id in r.contracts ==> r.contracts[c.id].event == c.event
    requires forall id :: id in r.contracts && id != c.id && r.contracts[id].event == c.event ==>
        r.contracts[id].status == Voided
    ensures Inv(PutLinked(r, c, token))
  {
    var r' := PutLinked(r, c, token);
    forall id | id in r'.contracts
      ensures r'.contracts[id].id == id && r'.contracts[id].event in r'.events && LinkOk(r', r'.contracts[id])
    {
      if id != c.id {
        assert LinkOk(r, r.contracts[id]);
      }
    }
  }

  /** The other contracts of an active contract's event are voided. */
  lemma OthersVoided(r: Registry, id: ContractId)
    requires Inv(r) && id in r.contracts && r.contracts[id].status != Voided
    ensures forall other :: other in r.contracts && other != id && r.contracts[other].event == r.contracts[id].event ==>
              r.contracts[other].status == Voided
  {
  }

  lemma IssueKeepsInv(policy: Policy, r: Registry, event: EventId, newId: ContractId, path: string, token: Token)
    requires Inv(r) && Enabled(r, IssueForEvent(event, newId, path, token))
    ensures Inv(ApplyIssue(policy, r, event, newId, path, token))
  {
    var r' := ApplyIssue(policy, r, event, newId, path, token);
    if r' != r {
      var active := ActiveContract(r, event);
      var c := if active.Some? then r.contracts[active.value] else NewContract(newId, event);
      if active.None? {
        assert forall id :: id in r.contracts && r.contracts[id].event == event ==> !ActiveFor(r, event, id);
      } else {
        OthersVoided(r, active.value);
      }
      PutLinkedKeepsInv(r, r'.contracts[c.id], token);
    }
  }

  lemma RegenerateKeepsInv(policy: Policy, r: Registry, s: Step)
    requires Inv(r) && s.Regenerate? && Enabled(r, s)
    ensures Inv(Apply(policy, r, s))
  {
    var r' := Apply(policy, r, s);
    if r' != r {
      OthersVoided(r, s.id);
      if r.contracts[s.id].status == Draft {
        PutKeepsInv(r, r'.contracts[s.id]);
      } else {
        PutLinkedKeepsInv(r, r'.contracts[s.id], s.token);
      }
    }
  }

  lemma ResendKeepsInv(policy: Policy, r: Registry, s: Step)
    requires Inv(r) && s.Resend? && Enabled(r, s)
    ensures Inv(Apply(policy, r, s))
  {
    var r' := Apply(policy, r, s);
    if r' != r {
      OthersVoided(r, s.id);
      PutLinkedKeepsInv(r, r'.contracts[s.id], s.token);
    }
  }

  predicate Signing(s: Step) {
    s.AskOtp? || s.CheckOtp? || s.SignContract?
  }

  lemma SigningKeepsInv(policy: Policy, r: Registry, s: Step)
    requires Inv(r) && Signing(s) && Enabled(r, s)
    ensures Inv(Apply(policy, r, s))
  {
    var r' := Apply(policy, r, s);
    if r' != r {
      OtpKeepsInv(r, r'.(events := r.events), FindToken(r, s.token).value);
    }
  }

  lemma StepKeepsInv(policy: Policy, r: Registry, s: Step)
    requires Inv(r) && Enabled(r, s)
    ensures Inv(Apply(policy, r, s))
  {
    match s
    case Tick(_) =>
    case EventChanges(_, _) =>
    case BookManually(event, data, id, pdf) =>
      PutKeepsInv(r.(events := r.events[event := data]), Apply(policy, r, s).contracts[id]);
    case IssueForEvent(event, newId, path, token) => IssueKeepsInv(policy, r, event, newId, path, token);
    case Resend(_, _) => ResendKeepsInv(policy, r, s);
    case Regenerate(_, _, _) => RegenerateKeepsInv(policy, r, s);
    case VoidContract(id, _) =>
      if Apply(policy, r, s) != r { PutKeepsInv(r, Apply(policy, r, s).contracts[id]); }
    case _ => SigningKeepsInv(policy, r, s);
  }

  /** Signing operations touch one active contract and at most drop its link. */
  lemma OtpKeepsInv(r: Registry, r': Registry, id: ContractId)
    requires Inv(r) && id in r.contracts && r.contracts[id].status != Voided && r.contracts[id].link.Some?
    requires id in r'.contracts
    requires var c' := r'.contracts[id];
             r' == Put(r, c') && c'.id == id && c'.event == r.contracts[id].event
             && ((c'.link == r.contracts[id].link && c'.status == r.contracts[id].status) || c'.link == None)
    ensures Inv(r')
  {
    OthersVoided(r, id);
    PutKeepsInv(r, r'.contracts[id]);
  }

  lemma {:induction false} EveryRunKeepsInv(policy: Policy, rs: seq<Registry>, steps: seq<Step>, k: nat)
    requires Run(policy, rs, steps) && k < |rs|
    ensures Inv(rs[k])
  {
    if k > 0 {
      EveryRunKeepsInv(policy, rs, steps, k - 1);
      StepKeepsInv(policy, rs[k - 1], steps[k - 1]);
    }
  }

  // ---------------------------------------------------------------- what every run guarantees

  /** At every moment an event has at most one contract that is not voided, a live token sits on an issued
      contract only, and only the newest token of an event resolves, to a single contract. */
  lemma OneActiveContractOneLiveLink(policy: Policy, rs: seq<Registry>, steps: seq<Step>, k: nat,
                                     event: EventId, token: Token)
    requires Run(policy, rs, steps) && k < |rs|
    ensures forall a, b :: ActiveFor(rs[k], event, a) && ActiveFor(rs[k], event, b) ==> a == b
    ensures forall id :: id in rs[k].contracts && rs[k].contracts[id].link.Some? ==>
        rs[k].contracts[id].status == Issued
    ensures forall id :: HasLink(rs[k], token, id) ==>
              rs[k].contracts[id].event in rs[k].lastToken && rs[k].lastToken[rs[k].contracts[id].event] == token
    ensures forall a, b :: HasLink(rs[k], token, a) && HasLink(rs[k], token, b) ==> a == b
  {
    EveryRunKeepsInv(policy, rs, steps, k);
  }

  predicate FinalKept(before: Contract, after: Contract, cancelled: bool) {
    && (before.status == Voided ==> after == before)
    && (before.status == Signed ==>
          || after == before
          || (cancelled && after.status == Voided && after.sealedPdf == before.sealedPdf
              && after.signedAt == before.signedAt))
  }

  predicate IsCancelled(r: Registry, event: EventId) {
    event in r.events && r.events[event].status == Cancelled
  }

  lemma SigningKeepsFinal(policy: Policy, r: Registry, s: Step, id: ContractId)
    requires Inv(r) && Enabled(r, s) && Signing(s) && id in r.contracts
    ensures id in Apply(policy, r, s).contracts
    ensures FinalKept(r.contracts[id], Apply(policy, r, s).contracts[id], IsCancelled(r, r.contracts[id].event))
  {
    var found := FindToken(r, s.token);
    assert found.Some? ==> LinkOk(r, r.contracts[found.value]);
  }

  lemma ManagementKeepsFinal(policy: Policy, r: Registry, s: Step, id: ContractId)
    requires Inv(r) && Enabled(r, s) && !Signing(s) && !s.IssueForEvent? && id in r.contracts
    ensures id in Apply(policy, r, s).contracts
    ensures FinalKept(r.contracts[id], Apply(policy, r, s).contracts[id], IsCancelled(r, r.contracts[id].event))
  {
  }

  lemma IssuingKeepsFinal(policy: Policy, r: Registry, s: Step, id: ContractId)
    requires Inv(r) && Enabled(r, s) && s.IssueForEvent? && id in r.contracts
    ensures id in Apply(policy, r, s).contracts
    ensures FinalKept(r.contracts[id], Apply(policy, r, s).contracts[id], IsCancelled(r, r.contracts[id].event))
  {
    var active := ActiveContract(r, s.event);
    assert active.Some? ==> ActiveFor(r, s.event, active.value);
  }

  /** A voided contract never changes again, and a signed one stays signed, with its evidence, unless it is
      voided after the event was cancelled. */
  lemma VoidedIsFinalAndSignedIsKept(policy: Policy, rs: seq<Registry>, steps: seq<Step>, k: nat, id: ContractId)
    requires Run(policy, rs, steps) && k < |steps| && id in rs[k].contracts
    ensures id in rs[k + 1].contracts
    ensures FinalKept(rs[k].contracts[id], rs[k + 1].contracts[id], IsCancelled(rs[k], rs[k].contracts[id].event))
  {
    EveryRunKeepsInv(policy, rs, steps, k);
    if steps[k].IssueForEvent? {
      IssuingKeepsFinal(policy, rs[k], steps[k], id);
    } else if Signing(steps[k]) {
      SigningKeepsFinal(policy, rs[k], steps[k], id);
    } else {
      ManagementKeepsFinal(policy, rs[k], steps[k], id);
    }
  }

  // ---------------------------------------------------------------- what issuing and signing leave

  /** The contract of the event that issuing works on: the one that is not voided, or a new draft. */
  ghost predicate WorksOn(r: Registry, event: EventId, newId: ContractId, c: Contract) {
    if exists id :: ActiveFor(r, event, id) then ActiveFor(r, event, c.id) && c == r.contracts[c.id]
    else c == Contract(newId, event, Draft, None, None, None, None, None, 0, None, None, 0, None, None)
  }

  ghost predicate AdvanceCovered(data: EventData) {
    && data.status == AwaitingSignature && data.total == data.services + data.mobility
    && 0 < data.advance <= data.total && data.requiredAdvance <= data.advance
  }

  lemma ContractToWorkOn(policy: Policy, r: Registry, event: EventId, newId: ContractId) returns (c: Contract)
    requires Inv(r)
    ensures WorksOn(r, event, newId, c)
    ensures c == if ActiveContract(r, event).Some? then r.contracts[ActiveContract(r, event).value]
                 else NewContract(newId, event)
  {
    var active := ActiveContract(r, event);
    c := if active.Some? then r.contracts[active.value] else NewContract(newId, event);
    if active.Some? {
      assert ActiveFor(r, event, active.value);
    }
  }

  /** Issuing for an event publishes a new link on its one contract, rendering the document unless an issued one has it
      already, exactly when the advance is covered and the contract is neither signed nor already published; otherwise
      it changes nothing. */
  lemma IssuingPublishesOneContract(policy: Policy, rs: seq<Registry>, steps: seq<Step>, k: nat) returns (c: Contract)
    requires Run(policy, rs, steps) && k < |steps| && steps[k].IssueForEvent?
    ensures WorksOn(rs[k], steps[k].event, steps[k].newId, c)
    ensures var r, s := rs[k], steps[k];
            var kept := c.status == Issued && c.pdf.Some?;
            if AdvanceCovered(r.events[s.event]) && c.status != Signed && !(c.status == Issued && c.link.Some?)
               && (kept || s.path != "")
            then rs[k + 1] == r.(
                   contracts := r.contracts[c.id := c.(
                     status := Issued, pdf := if kept then c.pdf else Some(s.path), link := Some(s.token),
                     linkExpiresAt := Some(r.now + policy.linkSeconds), otp := None, otpExpiresAt := None,
                     attempts := 0)],
                   lastToken := r.lastToken[s.event := s.token], used := r.used + {s.token})
            else rs[k + 1] == r
  {
    EveryRunKeepsInv(policy, rs, steps, k);
    c := ContractToWorkOn(policy, rs[k], steps[k].event, steps[k].newId);
  }

  /** A signature signs the one contract that holds the link and schedules its event, and touches no other. */
  lemma SigningSchedulesTheEvent(policy: Policy, rs: seq<Registry>, steps: seq<Step>, k: nat)
    returns (id: ContractId)
    requires Run(policy, rs, steps) && k < |steps| && steps[k].SignContract? && rs[k + 1] != rs[k]
    ensures HasLink(rs[k], steps[k].token, id)
    ensures var r, event := rs[k], rs[k].contracts[id].event;
      && r.events[event].status == AwaitingSignature
      && rs[k + 1].events == r.events[event := r.events[event].(status := Scheduled)]
      && rs[k + 1].contracts.Keys == r.contracts.Keys && rs[k + 1].contracts[id].status == Signed
      && rs[k + 1].contracts[id].signedAt == Some(r.now) && rs[k + 1].contracts[id].sealedPdf == steps[k].seal
      && forall other :: other in r.contracts && other != id ==> rs[k + 1].contracts[other] == r.contracts[other]
  {
    EveryRunKeepsInv(policy, rs, steps, k);
    var found := FindToken(rs[k], steps[k].token);
    assert found.Some?;
    id := found.value;
    assert HasLink(rs[k], steps[k].token, id) && rs[k].contracts[id].id == id;
  }

  /** A token reaches exactly the contract that holds it: a code asked or checked through it changes that contract as it
      would alone, and one that nobody holds changes nothing. */
  lemma TokensReachTheirHolder(policy: Policy, rs: seq<Registry>, steps: seq<Step>, k: nat, id: ContractId)
    requires Run(policy, rs, steps) && k < |steps| && (steps[k].AskOtp? || steps[k].CheckOtp?)
    ensures (forall holder :: !HasLink(rs[k], steps[k].token, holder)) ==> rs[k + 1] == rs[k]
    ensures HasLink(rs[k], steps[k].token, id) ==>
              var r, s, c, data := rs[k], steps[k], rs[k].contracts[id], rs[k].events[rs[k].contracts[id].event];
              var c' := if s.CheckOtp? then VerifyOtp(policy, c, data, s.token, s.code, r.now).0
                        else if RequestOtp(policy, c, data, s.token, s.code, r.now).Success?
                        then RequestOtp(policy, c, data, s.token, s.code, r.now).value else c;
              rs[k + 1] == r.(contracts := r.contracts[id := c'])
  {
    EveryRunKeepsInv(policy, rs, steps, k);
    var r, found := rs[k], FindToken(rs[k], steps[k].token);
    if HasLink(r, steps[k].token, id) {
      assert HasLink(r, steps[k].token, found.value);
      assert LinkOk(r, r.contracts[id]) && LinkOk(r, r.contracts[found.value]);
      assert found.value == id && r.contracts[id].id == id && r.contracts[id := r.contracts[id]] == r.contracts;
    }
  }

  /** Resending publishes a new link on an issued contract, regenerating also renders its document, or only the document
      of a draft, and voiding withdraws it; each goes ahead exactly when it may, and touches that contract alone. */
  lemma ManagementActsOnItsContract(policy: Policy, rs: seq<Registry>, steps: seq<Step>, k: nat)
    requires Run(policy, rs, steps) && k < |steps|
    requires steps[k].Resend? || steps[k].Regenerate? || steps[k].VoidContract?
    ensures var r, s, c := rs[k], steps[k], rs[k].contracts[steps[k].id];
            var data := r.events[c.event];
            var goes := match s
              case Resend(_, _) => AdvanceCovered(data) && c.status == Issued
              case Regenerate(_, path, _) => AdvanceCovered(data) && c.status in {Draft, Issued} && path != ""
              case VoidContract(_, reasonGiven) =>
                && reasonGiven && c.status != Voided && (c.status == Signed ==> data.status == Cancelled)
                && !data.started && data.status !in {InProgress, Extended, Settled}
              case _ => false;
            && (!goes ==> rs[k + 1] == r)
            && rs[k + 1].events == r.events && rs[k + 1].contracts.Keys == r.contracts.Keys
            && (forall other :: other in r.contracts && other != s.id ==>
                  rs[k + 1].contracts[other] == r.contracts[other])
            && (goes && s.Regenerate? ==> rs[k + 1].contracts[s.id].pdf == Some(s.path))
            && (goes && !s.VoidContract? && c.status == Issued ==>
                  rs[k + 1].contracts[s.id].link == Some(s.token) && rs[k + 1].contracts[s.id].otp == None)
            && (goes && c.status == Draft && !s.VoidContract? ==> rs[k + 1].contracts[s.id].status == Draft)
            && (goes && s.VoidContract? ==> rs[k + 1].contracts[s.id].status == Voided)
  {
    EveryRunKeepsInv(policy, rs, steps, k);
  }

  /** A manual booking brings its event and one contract, issued with its document or else a draft. */
  lemma BookingsBringTheirContract(policy: Policy, rs: seq<Registry>, steps: seq<Step>, k: nat)
    requires Run(policy, rs, steps) && k < |steps| && steps[k].BookManually?
    ensures var r, s := rs[k], steps[k];
            rs[k + 1] == r.(
              events := r.events[s.event := s.data],
              contracts := r.contracts[s.id := Contract(
                s.id, s.event, if s.pdf.Some? then Issued else Draft, s.pdf, None, None, None, None, 0, None, None, 0,
                None, None)])
  {
  }
}
