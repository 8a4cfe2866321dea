/**
 * The contract aggregate and what each signing or management operation does to it.
 *
 * Link tokens stand for their digests, which are injective; an OTP hash is the record of what it hashes;
 * a proof is the record of its claims. Instants are integer seconds.
 */
module Contracts {
  import opened Common

  type ContractId = nat
  type EventId = nat
  type Token = nat

  datatype ContractStatus = Draft | Issued | Signed | Voided

  /** The keyed hash of an OTP: it binds the contract, its link, the request and the code. */
  datatype OtpHash = OtpHash(contract: ContractId, link: Option<Token>, requestedAt: Option<int>, count: nat, code: nat)

  /** The claims of a token that proves an OTP was verified. */
  datatype Proof = Proof(contract: ContractId, link: Option<Token>, otp: OtpHash, issuedAt: int, expiresAt: int)

  datatype Contract = Contract(
    id: ContractId,
    event: EventId,
    status: ContractStatus,
    pdf: Option<string>,
    link: Option<Token>,
    linkExpiresAt: Option<int>,
    otp: Option<OtpHash>,
    otpExpiresAt: Option<int>,
    attempts: nat,
    lastRequestedAt: Option<int>,
    windowStartedAt: Option<int>,
    requestCount: nat,
    signedAt: Option<int>,
    sealedPdf: Option<string>)

  /** What signing needs to know about the event and its verified advance, in cents. */
  datatype EventData = EventData(
    status: EventStatus,
    started: bool,
    services: int,
    mobility: int,
    total: int,
    advance: int,
    requiredAdvance: int)

  datatype Policy = Policy(otpSeconds: int, maxAttempts: nat, proofSeconds: int, linkSeconds: int)

  const REQUEST_SPACING := 60
  const REQUEST_WINDOW := 600
  const REQUESTS_PER_WINDOW := 3

  datatype ContractError =
    | InvalidState | Invalid | UnknownLink | LinkExpired | RateLimited
    | AttemptsExceeded | OtpExpired | WrongOtp | Unpaid | SealFailed

  // ---------------------------------------------------------------- the aggregate

  function NewContract(id: ContractId, event: EventId): Contract {
    Contract(id, event, Draft, None, None, None, None, None, 0, None, None, 0, None, None)
  }

  predicate Editable(c: Contract) {
    c.status == Draft || c.status == Issued
  }

  function Issue(c: Contract, path: string): Result<Contract, ContractError> {
    if !Editable(c) then Failure(InvalidState)
    else if path == "" then Failure(Invalid)
    else Success(c.(pdf := Some(path), status := Issued))
  }

  function ReplaceLink(c: Contract, token: Token, expiresAt: int): Result<Contract, ContractError> {
    if c.status != Issued then Failure(InvalidState)
    else Success(c.(link := Some(token), linkExpiresAt := Some(expiresAt),
                    otp := None, otpExpiresAt := None, attempts := 0))
  }

  predicate EventUnderway(status: EventStatus) {
    status == InProgress || status == Extended || status == Settled
  }

  function Void(c: Contract, event: EventStatus, reasonGiven: bool, started: bool): Result<Contract, ContractError> {
    if !reasonGiven then Failure(Invalid)
    else if c.status == Voided then Failure(InvalidState)
    else if c.status == Signed && event != Cancelled then Failure(InvalidState)
    else if started || EventUnderway(event) then Failure(InvalidState)
    else Success(c.(status := Voided, link := None, linkExpiresAt := None,
                    otp := None, otpExpiresAt := None, attempts := 0))
  }

  // ---------------------------------------------------------------- management

  predicate Paid(data: EventData) {
    && data.services + data.mobility == data.total && data.advance <= data.total
    && data.requiredAdvance <= data.advance && 0 < data.advance
    && data.status == AwaitingSignature
  }

  /** Rendering when asked, then a new link: what issuing, resending and regenerating share. */
  function Relink(policy: Policy, c: Contract, data: EventData, render: Option<string>, token: Token,
                  now: int): Result<Contract, ContractError> {
    if !Paid(data) then Failure(Unpaid)
    else
      var rendered := if render.Some? then Issue(c, render.value) else Success(c);
      match rendered
      case Failure(e) => Failure(e)
      case Success(c1) => ReplaceLink(c1, token, now + policy.linkSeconds)
  }

  /** Regenerating a draft stores the new document and publishes nothing. */
  function RenderDraft(c: Contract, data: EventData, path: string): Result<Contract, ContractError> {
    if c.status != Draft then Failure(InvalidState)
    else if !Paid(data) then Failure(Unpaid)
    else match Issue(c, path)
      case Failure(e) => Failure(e)
      case Success(c1) => Success(c1.(status := Draft))
  }

  // ---------------------------------------------------------------- signing

  /** Why a link does not resolve, if it does not. */
  function ResolveError(c: Contract, data: EventData, token: Token, now: int): Option<ContractError> {
    if c.link != Some(token) then Some(UnknownLink)
    else if c.status != Issued || data.status != AwaitingSignature then Some(InvalidState)
    else if data.started then Some(InvalidState)
    else if c.linkExpiresAt.None? || c.linkExpiresAt.value <= now then Some(LinkExpired)
    else None
  }

  /** The window start and the requests already spent in it, or `None` when the limits refuse. */
  function RateLimit(lastRequestedAt: Option<int>, windowStartedAt: Option<int>, requestCount: nat,
                     now: int): Option<(int, nat)> {
    if lastRequestedAt.Some? && now < lastRequestedAt.value + REQUEST_SPACING then None
    else
      var expired := windowStartedAt.None? || now >= windowStartedAt.value + REQUEST_WINDOW;
      var (start, count) := if expired then (now, 0) else (windowStartedAt.value, requestCount);
      if count >= REQUESTS_PER_WINDOW then None else Some((start, count))
  }

  function HashOf(c: Contract, code: nat): OtpHash {
    OtpHash(c.id, c.link, c.lastRequestedAt, c.requestCount, code)
  }

  /** The hash of a code is of no other contract, link, request or code. */
  lemma HashesTellRequestsApart(c: Contract, code: nat, d: Contract, other: nat)
    ensures HashOf(c, code) == HashOf(d, other) <==>
              && c.id == d.id && c.link == d.link && c.lastRequestedAt == d.lastRequestedAt
              && c.requestCount == d.requestCount && code == other
  {
  }

  function RequestOtp(policy: Policy, c: Contract, data: EventData, token: Token, code: nat,
                      now: int): Result<Contract, ContractError> {
    match ResolveError(c, data, token, now)
    case Some(e) => Failure(e)
    case None =>
      match RateLimit(c.lastRequestedAt, c.windowStartedAt, c.requestCount, now)
      case None => Failure(RateLimited)
      case Some((start, count)) =>
        var requested := c.(windowStartedAt := Some(start), requestCount := count + 1, attempts := 0,
                            otpExpiresAt := Some(now + policy.otpSeconds), lastRequestedAt := Some(now));
        Success(requested.(otp := Some(HashOf(requested, code))))
  }

  /** Checking a code: the contract, whose failed attempts are kept, and the proof or the error. */
  function VerifyOtp(policy: Policy, c: Contract, data: EventData, token: Token, code: nat,
                     now: int): (Contract, Result<Proof, ContractError>) {
    match ResolveError(c, data, token, now)
    case Some(e) => (c, Failure(e))
    case None =>
      if c.attempts >= policy.maxAttempts then (c, Failure(AttemptsExceeded))
      else if c.otp.None? || c.otpExpiresAt.None? || c.otpExpiresAt.value <= now then (c, Failure(OtpExpired))
      else if c.otp.value != HashOf(c, code) then
        var attempts := c.attempts + 1;
        if attempts >= policy.maxAttempts then (c.(attempts := attempts, otp := None), Failure(AttemptsExceeded))
        else (c.(attempts := attempts), Failure(WrongOtp))
      else (c, Success(Proof(c.id, c.link, c.otp.value, now, now + policy.proofSeconds)))
  }

  /** A presented proof matches the live OTP and link; `None` is a token that does not decode. */
  predicate ProofHolds(policy: Policy, c: Contract, presented: Option<Proof>, now: int) {
    && presented.Some? && presented.value.issuedAt <= now < presented.value.expiresAt
    && presented.value.contract == c.id && presented.value.link == c.link
    && c.otp == Some(presented.value.otp) && c.attempts < policy.maxAttempts
  }

  function Sign(policy: Policy, c: Contract, data: EventData, token: Token, presented: Option<Proof>,
                seal: Option<string>, now: int): Result<Contract, ContractError> {
    match ResolveError(c, data, token, now)
    case Some(e) => Failure(e)
    case None =>
      if !ProofHolds(policy, c, presented, now) then Failure(WrongOtp)
      else if c.otpExpiresAt.None? || c.otpExpiresAt.value <= now then Failure(OtpExpired)
      else if data.advance < data.requiredAdvance || data.advance <= 0 then Failure(InvalidState)
      else if c.pdf.None? then Failure(InvalidState)
      else if seal.None? then Failure(SealFailed)
      else Success(c.(sealedPdf := seal, signedAt := Some(now), status := Signed,
                      link := None, linkExpiresAt := None, otp := None, otpExpiresAt := None))
  }

  /** Whatever a contract holds, it is signed only with an unexpired proof of its own OTP, on its own link, with
      attempts left and a document to seal. */
  lemma ForeignProofsSignNothing(policy: Policy, c: Contract, data: EventData, token: Token, presented: Option<Proof>,
                                 seal: Option<string>, now: int)
    requires Sign(policy, c, data, token, presented, seal, now).Success?
    ensures presented.Some? && c.otp.Some? && c.pdf.Some? && c.attempts < policy.maxAttempts
    ensures presented.value.contract == c.id && presented.value.link == c.link == Some(token)
    ensures presented.value.otp == c.otp.value && presented.value.issuedAt <= now < presented.value.expiresAt
  {
  }

  // ---------------------------------------------------------------- the aggregate in place

  class ContractRecord {
    const id: ContractId
    const event: EventId
    var status: ContractStatus
    var pdf: Option<string>
    var link: Option<Token>
    var linkExpiresAt: Option<int>
    var otp: Option<OtpHash>
    var otpExpiresAt: Option<int>
    var attempts: nat
    var lastRequestedAt: Option<int>
    var windowStartedAt: Option<int>
    var requestCount: nat
    var signedAt: Option<int>
    var sealedPdf: Option<string>

    function Value(): Contract
      reads this
    {
      Contract(id, event, status, pdf, link, linkExpiresAt, otp, otpExpiresAt, attempts, lastRequestedAt,
               windowStartedAt, requestCount, signedAt, sealedPdf)
    }

    constructor (c: Contract)
      ensures Value() == c
    {
      id, event, status, pdf := c.id, c.event, c.status, c.pdf;
      link, linkExpiresAt, otp, otpExpiresAt := c.link, c.linkExpiresAt, c.otp, c.otpExpiresAt;
      attempts, lastRequestedAt, windowStartedAt := c.attempts, c.lastRequestedAt, c.windowStartedAt;
      requestCount, signedAt, sealedPdf := c.requestCount, c.signedAt, c.sealedPdf;
    }

    method RunIssue(path: string) returns (error: Option<ContractError>)
      modifies this
      ensures match Issue(old(Value()), path)
              case Success(c) => error == None && Value() == c
              case Failure(e) => error == Some(e) && Value() == old(Value())
    {
      if status != Draft && status != Issued { return Some(InvalidState); }
      if path == "" { return Some(Invalid); }
      pdf := Some(path);
      status := Issued;
      error := None;
    }

    method RunReplaceLink(token: Token, expiresAt: int) returns (error: Option<ContractError>)
      modifies this
      ensures match ReplaceLink(old(Value()), token, expiresAt)
              case Success(c) => error == None && Value() == c
              case Failure(e) => error == Some(e) && Value() == old(Value())
    {
      if status != Issued { return Some(InvalidState); }
      link, linkExpiresAt := Some(token), Some(expiresAt);
      otp, otpExpiresAt, attempts := None, None, 0;
      error := None;
    }

    method RunVoid(eventStatus: EventStatus, reasonGiven: bool, started: bool) returns (error: Option<ContractError>)
      modifies this
      ensures match Void(old(Value()), eventStatus, reasonGiven, started)
              case Success(c) => error == None && Value() == c
              case Failure(e) => error == Some(e) && Value() == old(Value())
    {
      if !reasonGiven { return Some(Invalid); }
      if status == Voided { return Some(InvalidState); }
      if status == Signed && eventStatus != Cancelled { return Some(InvalidState); }
      if started || EventUnderway(eventStatus) { return Some(InvalidState); }
      status := Voided;
      link, linkExpiresAt := None, None;
      otp, otpExpiresAt, attempts := None, None, 0;
      error := None;
    }

    method RunRequestOtp(policy: Policy, data: EventData, token: Token, code: nat, now: int)
      returns (error: Option<ContractError>)
      modifies this
      ensures match RequestOtp(policy, old(Value()), data, token, code, now)
              case Success(c) => error == None && Value() == c
              case Failure(e) => error == Some(e) && Value() == old(Value())
    {
      error := ResolveError(Value(), data, token, now);
      if error.Some? { return; }
      if lastRequestedAt.Some? && now < lastRequestedAt.value + REQUEST_SPACING { return Some(RateLimited); }
      var start, count := windowStartedAt, requestCount;
      if start.None? || now >= start.value + REQUEST_WINDOW {
        start, count := Some(now), 0;
      }
      if count >= REQUESTS_PER_WINDOW { return Some(RateLimited); }
      windowStartedAt := start;
      otpExpiresAt := Some(now + policy.otpSeconds);
      attempts := 0;
      lastRequestedAt := Some(now);
      requestCount := count + 1;
      otp := Some(OtpHash(id, link, lastRequestedAt, requestCount, code));
    }

    method RunVerifyOtp(policy: Policy, data: EventData, token: Token, code: nat, now: int)
      returns (answer: Result<Proof, ContractError>)
      modifies this
      ensures (Value(), answer) == VerifyOtp(policy, old(Value()), data, token, code, now)
    {
      var unresolved := ResolveError(Value(), data, token, now);
      if unresolved.Some? { return Failure(unresolved.value); }
      if attempts >= policy.maxAttempts { return Failure(AttemptsExceeded); }
      if otp.None? || otpExpiresAt.None? || otpExpiresAt.value <= now { return Failure(OtpExpired); }
      if otp.value != OtpHash(id, link, lastRequestedAt, requestCount, code) {
        attempts := attempts + 1;
        if attempts >= policy.maxAttempts {
          otp := None;
          return Failure(AttemptsExceeded);
        }
        return Failure(WrongOtp);
      }
      answer := Success(Proof(id, link, otp.value, now, now + policy.proofSeconds));
    }

    method RunSign(policy: Policy, data: EventData, token: Token, presented: Option<Proof>,
                   seal: Option<string>, now: int)
      returns (error: Option<ContractError>)
      modifies this
      ensures match Sign(policy, old(Value()), data, token, presented, seal, now)
              case Success(c) => error == None && Value() == c
              case Failure(e) => error == Some(e) && Value() == old(Value())
    {
      error := ResolveError(Value(), data, token, now);
      if error.Some? { return; }
      if !ProofHolds(policy, Value(), presented, now) { return Some(WrongOtp); }
      if otpExpiresAt.None? || otpExpiresAt.value <= now { return Some(OtpExpired); }
      if data.advance < data.requiredAdvance || data.advance <= 0 { return Some(InvalidState); }
      if pdf.None? { return Some(InvalidState); }
      if seal.None? { return Some(SealFailed); }
      sealedPdf, signedAt := seal, Some(now);
      status := Signed;
      link, linkExpiresAt := None, None;
      otp, otpExpiresAt := None, None;
    }
  }
}
