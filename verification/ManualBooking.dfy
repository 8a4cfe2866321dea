/**
 * Manual bookings: a quote staged with its advance receipt becomes an event with a contract, or its advance
 * is rejected or refunded. One dossier gathers the rows of one quote; each operation is one transaction.
 *
 * The ids of the event and of its contract are derived from the quote's. Reasons come already stripped.
 */
module ManualBooking {
  import opened Common
  import opened AvailabilityServices

  type QuoteId = nat
  type UserId = nat

  datatype QuoteStatus = Sent | PaymentStarted | Converted | QuoteExpired | QuoteCancelled

  datatype PaymentStatus = PendingVerification | RequiresManualApproval | Verified | Rejected | RefundPending | Refunded

  datatype Amounts = Amounts(services: int, mobility: int, total: int, advance: int)

  datatype Quote = Quote(
    status: QuoteStatus, startsAt: int, expiresAt: int, hash: nat, amounts: Amounts, cancellation: Option<string>)

  datatype Payment = Payment(
    status: PaymentStatus, amount: int, registeredBy: Option<UserId>, verifiedBy: Option<UserId>,
    verifiedAt: Option<int>, event: Option<QuoteId>, rejection: Option<string>)

  /** A contract that is not voided, and the amounts its document was rendered with. */
  datatype ContractRow = ContractRow(draft: bool, rendered: Amounts)

  datatype Dossier = Dossier(quote: Quote, payment: Payment, event: Option<Amounts>, contract: Option<ContractRow>)

  type Store = map<QuoteId, Dossier>

  datatype BookingError = NotFound | Invalid | InUse | InvalidState | NotIssued

  const REASON_LENGTH := 10

  // ---------------------------------------------------------------- the payment

  predicate InReview(p: Payment) {
    p.status == PendingVerification || p.status == RequiresManualApproval
  }

  function Verify(p: Payment, user: UserId, event: QuoteId, now: int): Result<Payment, BookingError> {
    if p.status != PendingVerification then Failure(InvalidState)
    else Success(p.(status := Verified, verifiedBy := Some(user), verifiedAt := Some(now),
                    event := Some(event), rejection := None))
  }

  function RequireManualApproval(p: Payment): Result<Payment, BookingError> {
    if !InReview(p) then Failure(InvalidState) else Success(p.(status := RequiresManualApproval))
  }

  function ApproveOverbooked(p: Payment, user: UserId, event: QuoteId, now: int): Result<Payment, BookingError> {
    if p.status != RequiresManualApproval then Failure(InvalidState)
    else Success(p.(status := Verified, verifiedBy := Some(user), verifiedAt := Some(now),
                    event := Some(event), rejection := None))
  }

  function Reject(p: Payment, reason: string, now: int): Result<Payment, BookingError> {
    if !InReview(p) then Failure(InvalidState)
    else if reason == "" then Failure(Invalid)
    else Success(p.(status := Rejected, rejection := Some(reason), verifiedAt := Some(now)))
  }

  function MarkRefundPending(p: Payment): Result<Payment, BookingError> {
    if p.status != RequiresManualApproval then Failure(InvalidState) else Success(p.(status := RefundPending))
  }

  function ConfirmRefund(p: Payment): Result<Payment, BookingError> {
    if p.status != RefundPending then Failure(InvalidState) else Success(p.(status := Refunded))
  }

  function Progress(status: PaymentStatus): nat {
    match status
    case PendingVerification => 0
    case RequiresManualApproval => 1
    case RefundPending => 2
    case _ => 3
  }

  /** An advance only moves forward, and stops once verified, rejected or refunded: verified only out of review,
      with its event and verifier; refunded only after the refund of an advance held for approval. */
  lemma PaymentsMoveForward(p: Payment, q: Payment, user: UserId, event: QuoteId, reason: string, now: int)
    requires || Verify(p, user, event, now) == Success(q) || ApproveOverbooked(p, user, event, now) == Success(q)
             || RequireManualApproval(p) == Success(q) || Reject(p, reason, now) == Success(q)
             || MarkRefundPending(p) == Success(q) || ConfirmRefund(p) == Success(q)
    ensures Progress(p.status) < Progress(q.status) || (p == q && q.status == RequiresManualApproval)
    ensures q.status == Verified ==> InReview(p) && q.event == Some(event) && q.verifiedBy == Some(user)
    ensures q.status == Rejected ==> InReview(p) && q.rejection == Some(reason) && reason != ""
    ensures q.status == Refunded ==> p.status == RefundPending
    ensures q.status == RefundPending ==> p.status == RequiresManualApproval
    ensures q.amount == p.amount && q.registeredBy == p.registeredBy
  {
  }

  class PaymentRecord {
    var status: PaymentStatus
    const amount: int
    const registeredBy: Option<UserId>
    var verifiedBy: Option<UserId>
    var verifiedAt: Option<int>
    var event: Option<QuoteId>
    var rejection: Option<string>

    function Value(): Payment
      reads this
    {
      Payment(status, amount, registeredBy, verifiedBy, verifiedAt, event, rejection)
    }

    constructor (p: Payment)
      ensures Value() == p
    {
      status, amount, registeredBy, verifiedBy := p.status, p.amount, p.registeredBy, p.verifiedBy;
      verifiedAt, event, rejection := p.verifiedAt, p.event, p.rejection;
    }

    method RunVerify(user: UserId, eventId: QuoteId, now: int) returns (error: Option<BookingError>)
      modifies this
      ensures match Verify(old(Value()), user, eventId, now)
              case Success(p) => error == None && Value() == p
              case Failure(e) => error == Some(e) && Value() == old(Value())
    {
      if status != PendingVerification { return Some(InvalidState); }
      status := Verified;
      verifiedBy, verifiedAt, event, rejection := Some(user), Some(now), Some(eventId), None;
      error := None;
    }

    method RunRequireManualApproval() returns (error: Option<BookingError>)
      modifies this
      ensures match RequireManualApproval(old(Value()))
              case Success(p) => error == None && Value() == p
              case Failure(e) => error == Some(e) && Value() == old(Value())
    {
      if status != PendingVerification && status != RequiresManualApproval { return Some(InvalidState); }
      status := RequiresManualApproval;
      error := None;
    }

    method RunApproveOverbooked(user: UserId, eventId: QuoteId, now: int) returns (error: Option<BookingError>)
      modifies this
      ensures match ApproveOverbooked(old(Value()), user, eventId, now)
              case Success(p) => error == None && Value() == p
              case Failure(e) => error == Some(e) && Value() == old(Value())
    {
      if status != RequiresManualApproval { return Some(InvalidState); }
      status := Verified;
      verifiedBy, verifiedAt, event, rejection := Some(user), Some(now), Some(eventId), None;
      error := None;
    }

    method RunReject(reason: string, now: int) returns (error: Option<BookingError>)
      modifies this
      ensures match Reject(old(Value()), reason, now)
              case Success(p) => error == None && Value() == p
              case Failure(e) => error == Some(e) && Value() == old(Value())
    {
      if status != PendingVerification && status != RequiresManualApproval { return Some(InvalidState); }
      if reason == "" { return Some(Invalid); }
      status := Rejected;
      rejection, verifiedAt := Some(reason), Some(now);
      error := None;
    }

    method RunMarkRefundPending() returns (error: Option<BookingError>)
      modifies this
      ensures match MarkRefundPending(old(Value()))
              case Success(p) => error == None && Value() == p
              case Failure(e) => error == Some(e) && Value() == old(Value())
    {
      if status != RequiresManualApproval { return Some(InvalidState); }
      status := RefundPending;
      error := None;
    }

    method RunConfirmRefund() returns (error: Option<BookingError>)
      modifies this
      ensures match ConfirmRefund(old(Value()))
              case Success(p) => error == None && Value() == p
              case Failure(e) => error == Some(e) && Value() == old(Value())
    {
      if status != RefundPending { return Some(InvalidState); }
      status := Refunded;
      error := None;
    }
  }

  // ---------------------------------------------------------------- the quote

  predicate Open(q: Quote) {
    q.status == Sent || q.status == PaymentStarted
  }

  function StartPayment(q: Quote, now: int): Result<Quote, BookingError> {
    if !Open(q) then Failure(InvalidState)
    else if q.status == PaymentStarted then Success(q)
    else if now >= q.expiresAt then Failure(InvalidState)
    else Success(q.(status := PaymentStarted))
  }

  function Convert(q: Quote): Result<Quote, BookingError> {
    if q.status != PaymentStarted then Failure(InvalidState) else Success(q.(status := Converted))
  }

  function Expire(q: Quote, now: int): Result<Quote, BookingError> {
    if !Open(q) || now < q.expiresAt then Failure(InvalidState) else Success(q.(status := QuoteExpired))
  }

  function Cancel(q: Quote, reason: string): Result<Quote, BookingError> {
    if !Open(q) then Failure(InvalidState)
    else Success(q.(status := QuoteCancelled, cancellation := if reason == "" then None else Some(reason)))
  }

  /** Replaces the amounts of an open quote; the advance must stay. */
  function Override(q: Quote, amounts: Amounts, reason: string): Result<Quote, BookingError> {
    if !Open(q) then Failure(InvalidState)
    else if reason == "" || amounts.advance != q.amounts.advance then Failure(Invalid)
    else Success(q.(amounts := amounts))
  }

  /** A closed quote never changes; an open one starts its payment or closes, expired only past its deadline and
      converted only from a started payment; and nothing ever changes its advance. */
  lemma QuotesCloseForGood(q: Quote, r: Quote, now: int, reason: string, amounts: Amounts)
    requires || StartPayment(q, now) == Success(r) || Convert(q) == Success(r) || Expire(q, now) == Success(r)
             || Cancel(q, reason) == Success(r) || Override(q, amounts, reason) == Success(r)
    ensures Open(q) && r.amounts.advance == q.amounts.advance && r.hash == q.hash
    ensures r.status == Converted ==> q.status == PaymentStarted
    ensures r.status == QuoteExpired ==> now >= q.expiresAt
    ensures r.status == Sent ==> q.status == Sent
    ensures !Open(r) ==> r.amounts == q.amounts
  {
  }

  class QuoteRecord {
    var status: QuoteStatus
    const startsAt: int
    const expiresAt: int
    const hash: nat
    var amounts: Amounts
    var cancellation: Option<string>

    function Value(): Quote
      reads this
    {
      Quote(status, startsAt, expiresAt, hash, amounts, cancellation)
    }

    constructor (q: Quote)
      ensures Value() == q
    {
      status, startsAt, expiresAt, hash := q.status, q.startsAt, q.expiresAt, q.hash;
      amounts, cancellation := q.amounts, q.cancellation;
    }

    method RunStartPayment(now: int) returns (error: Option<BookingError>)
      modifies this
      ensures match StartPayment(old(Value()), now)
              case Success(q) => error == None && Value() == q
              case Failure(e) => error == Some(e) && Value() == old(Value())
    {
      if status == Converted || status == QuoteCancelled { return Some(InvalidState); }
      if status == QuoteExpired { return Some(InvalidState); }
      if status == PaymentStarted { return None; }
      if now >= expiresAt { return Some(InvalidState); }
      status := PaymentStarted;
      error := None;
    }

    method RunConvert() returns (error: Option<BookingError>)
      modifies this
      ensures match Convert(old(Value()))
              case Success(q) => error == None && Value() == q
              case Failure(e) => error == Some(e) && Value() == old(Value())
    {
      if status != PaymentStarted { return Some(InvalidState); }
      status := Converted;
      error := None;
    }

    method RunExpire(now: int) returns (error: Option<BookingError>)
      modifies this
      ensures match Expire(old(Value()), now)
              case Success(q) => error == None && Value() == q
              case Failure(e) => error == Some(e) && Value() == old(Value())
    {
      if status != Sent && status != PaymentStarted { return Some(InvalidState); }
      if now < expiresAt { return Some(InvalidState); }
      status := QuoteExpired;
      error := None;
    }

    method RunCancel(reason: string) returns (error: Option<BookingError>)
      modifies this
      ensures match Cancel(old(Value()), reason)
              case Success(q) => error == None && Value() == q
              case Failure(e) => error == Some(e) && Value() == old(Value())
    {
      if status != Sent && status != PaymentStarted { return Some(InvalidState); }
      status := QuoteCancelled;
      cancellation := if reason != "" then Some(reason) else None;
      error := None;
    }

    method RunOverride(replacement: Amounts, reason: string) returns (error: Option<BookingError>)
      modifies this
      ensures match Override(old(Value()), replacement, reason)
              case Success(q) => error == None && Value() == q
              case Failure(e) => error == Some(e) && Value() == old(Value())
    {
      if status != Sent && status != PaymentStarted { return Some(InvalidState); }
      if reason == "" { return Some(Invalid); }
      if replacement.advance != amounts.advance { return Some(Invalid); }
      amounts := replacement;
      error := None;
    }
  }

  // ---------------------------------------------------------------- the transactions on one dossier

  /** What a reader of the booking sees: the comparison that detects a change during the review. */
  datatype Booking = Booking(
    quote: Quote, paymentStatus: PaymentStatus, paid: int, registeredBy: Option<UserId>,
    event: Option<Amounts>, contract: Option<ContractRow>)

  function View(d: Dossier): Booking {
    Booking(d.quote.(cancellation := None), d.payment.status, d.payment.amount, d.payment.registeredBy,
            d.event, d.contract)
  }

  /** What the caller asks for, priced; `paid` is the amount on the receipt. */
  datatype Request = Request(hash: nat, amounts: Amounts, paid: int, startsAt: int, expiresAt: int)

  function Staged(r: Request, user: UserId, available: bool): Dossier {
    Dossier(
      Quote(PaymentStarted, r.startsAt, r.expiresAt, r.hash, r.amounts, None),
      Payment(if available then PendingVerification else RequiresManualApproval,
              r.amounts.advance, Some(user), None, None, None, None),
      None, None)
  }

  predicate Active(q: Quote) {
    q.status == PaymentStarted || q.status == Converted
  }

  /** At most one active request per hash; the database keeps it. */
  ghost predicate HashTaken(s: Store, hash: nat) {
    exists id :: id in s && Active(s[id].quote) && s[id].quote.hash == hash
  }

  /** Why a request cannot be staged. */
  ghost function StageError(s: Store, r: Request, now: int): Option<BookingError> {
    if r.paid != r.amounts.advance then Some(Invalid)
    else if r.startsAt <= now || r.amounts.advance <= 0 || now >= r.expiresAt then Some(Invalid)
    else if HashTaken(s, r.hash) then Some(InUse)
    else None
  }

  /** Event, verified payment, converted quote and contract, together. */
  function Finalize(id: QuoteId, d: Dossier, user: UserId, now: int, draft: bool,
                    rendered: Amounts): Result<Dossier, BookingError> {
    var verified := if d.payment.status == RequiresManualApproval then ApproveOverbooked(d.payment, user, id, now)
                    else Verify(d.payment, user, id, now);
    match (verified, Convert(d.quote))
    case (Success(payment), Success(quote)) =>
      Success(Dossier(quote, payment, Some(d.quote.amounts), Some(ContractRow(draft, rendered))))
    case (Failure(e), _) => Failure(e)
    case (Success(_), Failure(e)) => Failure(e)
  }

  /** Who confirms and how; `reason` documents an exception. */
  datatype Decision = Decision(user: UserId, approve: bool, reason: string, mayVerifyOwn: bool)

  predicate Documented(decision: Decision) {
    |decision.reason| >= REASON_LENGTH
  }

  /** What the other components answer while confirming. */
  datatype Answers = Answers(now: int, packageActive: bool, availability: Availability, contractIssues: bool)

  predicate Blocked(decision: Decision, a: Availability) {
    a.status != Available && (!decision.approve || a.status != RequiresApproval || a.shortages != [])
  }

  predicate Supervised(d: Dossier, decision: Decision) {
    d.payment.registeredBy != Some(decision.user) || (decision.mayVerifyOwn && Documented(decision))
  }

  /** Confirming against the preview that was rendered: the dossier left behind and the answer. */
  function Confirm(id: QuoteId, d: Dossier, preview: Option<Booking>, decision: Decision,
                   a: Answers): (Dossier, Result<Booking, BookingError>) {
    if decision.approve && !Documented(decision) then (d, Failure(Invalid))
    else if preview.None? then (d, Failure(NotFound))
    else if d.event.Some? then
      (d, if d.contract.Some? && d.payment.status == Verified then Success(View(d)) else Failure(Invalid))
    else if preview.value != View(d) then (d, Failure(InUse))
    else if d.quote.status != PaymentStarted || d.quote.expiresAt <= a.now then (d, Failure(Invalid))
    else if !Supervised(d, decision) then (d, Failure(Invalid))
    else if !InReview(d.payment) || d.payment.amount != d.quote.amounts.advance then (d, Failure(Invalid))
    else if d.quote.startsAt <= a.now then (d, Failure(Invalid))
    else if !a.packageActive then (d, Failure(NotFound))
    else if Blocked(decision, a.availability) then
      match RequireManualApproval(d.payment) {
        case Success(payment) => (d.(payment := payment), Success(View(d.(payment := payment))))
        case Failure(e) => (d, Failure(e))
      }
    else if d.payment.status == RequiresManualApproval && !decision.approve then (d, Failure(InUse))
    else
      match Finalize(id, d, decision.user, a.now, false, preview.value.quote.amounts)
      case Failure(e) => (d, Failure(e))
      case Success(booked) => if a.contractIssues then (booked, Success(View(booked))) else (d, Failure(NotIssued))
  }

  /** The registration that also verifies, in one transaction under the availability lock. */
  ghost function CreateBooked(s: Store, id: QuoteId, r: Request, user: UserId, available: bool, issue: bool,
                              a: Answers): Result<Dossier, BookingError> {
    match StageError(s, r, a.now)
    case Some(e) => Failure(e)
    case None =>
      if a.availability.status != Available then Failure(InUse)
      else match Finalize(id, Staged(r, user, available), user, a.now, !issue, r.amounts)
        case Failure(e) => Failure(e)
        case Success(d) => if issue && !a.contractIssues then Failure(NotIssued) else Success(d)
  }

  /** The advance is given up for refund, or its refund confirmed; an open quote is cancelled with it. */
  function Refund(d: Dossier, user: UserId, confirmed: bool, reason: string, now: int): Result<Dossier, BookingError> {
    if |reason| < REASON_LENGTH then Failure(Invalid)
    else if d.event.Some? then Failure(Invalid)
    else if d.payment.status == (if confirmed then Refunded else RefundPending) then Success(d)
    else
      match (if confirmed then ConfirmRefund(d.payment) else MarkRefundPending(d.payment))
      case Failure(e) => Failure(e)
      case Success(p) =>
        var payment := p.(verifiedBy := Some(user), verifiedAt := Some(now));
        if d.quote.status == QuoteCancelled || d.quote.status == QuoteExpired then Success(d.(payment := payment))
        else match Cancel(d.quote, reason)
          case Failure(e) => Failure(e)
          case Success(quote) => Success(d.(payment := payment, quote := quote))
  }

  /** Expiring one quote that the due query returned: skipped if its payment is in review by now. */
  function ExpireDue(d: Dossier, now: int): Dossier {
    if InReview(d.payment) then d
    else match Expire(d.quote, now)
      case Success(quote) => d.(quote := quote)
      case Failure(_) => d
  }

  function CancelQuote(d: Dossier, reason: string): Result<Dossier, BookingError> {
    if !Open(d.quote) || InReview(d.payment) then Failure(InvalidState)
    else match Cancel(d.quote, reason)
      case Failure(e) => Failure(e)
      case Success(quote) => Success(d.(quote := quote))
  }

  // ---------------------------------------------------------------- the store in place

  function ExpireEach(s: Store, due: seq<QuoteId>, now: int): Store
    requires forall id :: id in due ==> id in s
  {
    if due == [] then s
    else
      var last := due[|due| - 1];
      var before := ExpireEach(s, due[..|due| - 1], now);
      if last in before then before[last := ExpireDue(before[last], now)] else before
  }

  /** How many of the due quotes expire: those whose payment is not in review. */
  function ExpiredCount(s: Store, due: seq<QuoteId>): nat
    requires forall id :: id in due ==> id in s
  {
    if due == [] then 0
    else ExpiredCount(s, due[..|due| - 1]) + (if InReview(s[due[|due| - 1]].payment) then 0 else 1)
  }

  lemma {:induction false} ExpiringTouchesOnlyTheDue(s: Store, due: seq<QuoteId>, now: int)
    requires forall id :: id in due ==> id in s
    ensures ExpireEach(s, due, now).Keys == s.Keys
    ensures forall id :: id in s && id !in due ==> ExpireEach(s, due, now)[id] == s[id]
    ensures Distinct(due) ==> forall id :: id in due ==> ExpireEach(s, due, now)[id] == ExpireDue(s[id], now)
  {
    if due != [] {
      var shorter := due[..|due| - 1];
      ExpiringTouchesOnlyTheDue(s, shorter, now);
      assert due == shorter + [due[|due| - 1]];
    }
  }

  lemma OneMoreExpires(s: Store, due: seq<QuoteId>, i: nat, now: int)
    requires Distinct(due) && i < |due|
    requires forall id :: id in due ==> id in s
    ensures forall id :: id in due[..i] ==> id in s
    ensures ExpireEach(s, due[..i], now).Keys == s.Keys && ExpireEach(s, due[..i], now)[due[i]] == s[due[i]]
    ensures ExpireEach(s, due[..i + 1], now)
            == ExpireEach(s, due[..i], now)[due[i] := ExpireDue(s[due[i]], now)]
    ensures ExpiredCount(s, due[..i + 1]) == ExpiredCount(s, due[..i]) + (if InReview(s[due[i]].payment) then 0 else 1)
  {
    ExpiringTouchesOnlyTheDue(s, due[..i], now);
    assert due[..i + 1][..i] == due[..i];
  }

  class BookingDesk {
    var dossiers: Store

    constructor ()
      ensures dossiers == map[]
    {
      dossiers := map[];
    }

    /** Registers a request under its reference; the same request again returns what is stored. */
    method Register(id: QuoteId, r: Request, user: UserId, available: bool, now: int)
      returns (answer: Result<Booking, BookingError>)
      modifies this
      ensures id in old(dossiers) ==>
                && dossiers == old(dossiers)
                && answer == (if old(dossiers)[id].quote.hash == r.hash
                    then Success(View(old(dossiers)[id])) else Failure(InUse))
      ensures id !in old(dossiers) ==>
                match StageError(old(dossiers), r, now)
                case Some(e) => answer == Failure(e) && dossiers == old(dossiers)
                case None =>
                  && dossiers == old(dossiers)[id := Staged(r, user, available)]
                  && answer == Success(View(dossiers[id]))
    {
      if id in dossiers {
        return if dossiers[id].quote.hash != r.hash then Failure(InUse) else Success(View(dossiers[id]));
      }
      if r.paid != r.amounts.advance || r.startsAt <= now { return Failure(Invalid); }
      var quote := new QuoteRecord(Quote(Sent, r.startsAt, r.expiresAt, r.hash, r.amounts, None));
      var refused := quote.RunStartPayment(now);
      if refused.Some? || r.amounts.advance <= 0 { return Failure(Invalid); }
      if exists other :: other in dossiers && Active(dossiers[other].quote) && dossiers[other].quote.hash == r.hash {
        return Failure(InUse);
      }
      var payment := Payment(if available then PendingVerification else RequiresManualApproval,
                             r.amounts.advance, Some(user), None, None, None, None);
      dossiers := dossiers[id := Dossier(quote.Value(), payment, None, None)];
      answer := Success(View(dossiers[id]));
    }

    /** Nothing stays of a registration that does not reach its contract. */
    method RunCreateBooked(id: QuoteId, r: Request, user: UserId, available: bool, issue: bool, a: Answers)
      returns (answer: Result<Booking, BookingError>)
      modifies this
      ensures id in old(dossiers) ==>
                && dossiers == old(dossiers)
                && answer == (if old(dossiers)[id].quote.hash == r.hash && old(dossiers)[id].contract.Some?
                              then Success(View(old(dossiers)[id])) else Failure(InUse))
      ensures id !in old(dossiers) ==>
                match CreateBooked(old(dossiers), id, r, user, available, issue, a)
                case Failure(e) => answer == Failure(e) && dossiers == old(dossiers)
                case Success(d) => dossiers == old(dossiers)[id := d] && answer == Success(View(d))
    {
      var before := dossiers;
      if id in dossiers && (dossiers[id].quote.hash != r.hash || dossiers[id].contract.None?) { return Failure(InUse); }
      var known := id in dossiers;
      answer := Register(id, r, user, available, a.now);
      if known || answer.Failure? { return; }
      if a.availability.status != Available {
        dossiers := before;
        return Failure(InUse);
      }
      var booking := dossiers[id];
      var payment := new PaymentRecord(booking.payment);
      var quote := new QuoteRecord(booking.quote);
      var error;
      if payment.status == RequiresManualApproval {
        error := payment.RunApproveOverbooked(user, id, a.now);
      } else {
        error := payment.RunVerify(user, id, a.now);
      }
      assert error.None?;
      error := quote.RunConvert();
      assert error.None?;
      if issue && !a.contractIssues {
        dossiers := before;
        return Failure(NotIssued);
      }
      var contract := ContractRow(!issue, r.amounts);
      dossiers := before[id := Dossier(quote.Value(), payment.Value(), Some(r.amounts), Some(contract))];
      answer := Success(View(dossiers[id]));
    }

    method RunConfirm(id: QuoteId, preview: Option<Booking>, decision: Decision, a: Answers)
      returns (answer: Result<Booking, BookingError>)
      modifies this
      ensures id !in old(dossiers) ==>
                && dossiers == old(dossiers)
                && answer == Failure(if decision.approve && !Documented(decision) then Invalid else NotFound)
      ensures id in old(dossiers) ==>
                && answer == Confirm(id, old(dossiers)[id], preview, decision, a).1
                && dossiers == old(dossiers)[id := Confirm(id, old(dossiers)[id], preview, decision, a).0]
    {
      assert id in dossiers ==> dossiers == dossiers[id := dossiers[id]];
      if decision.approve && |decision.reason| < REASON_LENGTH { return Failure(Invalid); }
      if preview.None? || id !in dossiers { return Failure(NotFound); }
      var booking := dossiers[id];
      if booking.event.Some? {
        var stands := booking.contract.Some? && booking.payment.status == Verified;
        return if stands then Success(View(booking)) else Failure(Invalid);
      }
      if preview.value != View(booking) { return Failure(InUse); }
      if booking.quote.status != PaymentStarted { return Failure(Invalid); }
      if booking.quote.expiresAt <= a.now { return Failure(Invalid); }
      if booking.payment.registeredBy == Some(decision.user)
          && (!decision.mayVerifyOwn || |decision.reason| < REASON_LENGTH) {
        return Failure(Invalid);
      }
      if booking.payment.status != PendingVerification && booking.payment.status != RequiresManualApproval {
        return Failure(Invalid);
      }
      if booking.payment.amount != booking.quote.amounts.advance { return Failure(Invalid); }
      if booking.quote.startsAt <= a.now { return Failure(Invalid); }
      if !a.packageActive { return Failure(NotFound); }
      if a.availability.status != Available
         && (!decision.approve || a.availability.status != RequiresApproval || a.availability.shortages != []) {
        var payment := new PaymentRecord(booking.payment);
        var error := payment.RunRequireManualApproval();
        assert error.None?;
        dossiers := dossiers[id := booking.(payment := payment.Value())];
        return Success(View(dossiers[id]));
      }
      if booking.payment.status == RequiresManualApproval && !decision.approve { return Failure(InUse); }
      answer := Book(id, decision.user, a.now, preview.value.quote.amounts, a.contractIssues);
    }

    /** Event, payment, quote and contract of a booking in review; nothing stays if its contract cannot be issued. */
    method Book(id: QuoteId, user: UserId, now: int, rendered: Amounts, issues: bool)
      returns (answer: Result<Booking, BookingError>)
      requires id in dossiers && InReview(dossiers[id].payment) && dossiers[id].quote.status == PaymentStarted
      modifies this
      ensures Finalize(id, old(dossiers)[id], user, now, false, rendered).Success?
      ensures var booked := Finalize(id, old(dossiers)[id], user, now, false, rendered).value;
              if issues then dossiers == old(dossiers)[id := booked] && answer == Success(View(booked))
              else dossiers == old(dossiers) && answer == Failure(NotIssued)
    {
      var booking := dossiers[id];
      var payment := new PaymentRecord(booking.payment);
      var error;
      if payment.status == RequiresManualApproval {
        error := payment.RunApproveOverbooked(user, id, now);
      } else {
        error := payment.RunVerify(user, id, now);
      }
      assert error.None?;
      var quote := new QuoteRecord(booking.quote);
      error := quote.RunConvert();
      assert error.None?;
      if !issues { return Failure(NotIssued); }
      var contract := ContractRow(false, rendered);
      dossiers := dossiers[id := Dossier(quote.Value(), payment.Value(), Some(booking.quote.amounts), Some(contract))];
      answer := Success(View(dossiers[id]));
    }

    method RunRefund(id: QuoteId, user: UserId, confirmed: bool, reason: string, now: int)
      returns (answer: Result<Booking, BookingError>)
      modifies this
      ensures id !in old(dossiers) ==>
                dossiers == old(dossiers) && answer == Failure(if |reason| < REASON_LENGTH then Invalid else NotFound)
      ensures id in old(dossiers) ==>
                match Refund(old(dossiers)[id], user, confirmed, reason, now)
                case Success(d) => dossiers == old(dossiers)[id := d] && answer == Success(View(d))
                case Failure(e) => dossiers == old(dossiers) && answer == Failure(e)
    {
      assert id in dossiers ==> dossiers == dossiers[id := dossiers[id]];
      if |reason| < REASON_LENGTH { return Failure(Invalid); }
      if id !in dossiers { return Failure(NotFound); }
      var booking := dossiers[id];
      if booking.event.Some? { return Failure(Invalid); }
      if booking.payment.status == (if confirmed then Refunded else RefundPending) { return Success(View(booking)); }
      var payment := new PaymentRecord(booking.payment);
      var error;
      if confirmed {
        error := payment.RunConfirmRefund();
      } else {
        error := payment.RunMarkRefundPending();
      }
      if error.Some? { return Failure(error.value); }
      payment.verifiedBy, payment.verifiedAt := Some(user), Some(now);
      var quote := new QuoteRecord(booking.quote);
      if quote.status != QuoteCancelled && quote.status != QuoteExpired {
        error := quote.RunCancel(reason);
        if error.Some? { return Failure(error.value); }
      }
      dossiers := dossiers[id := booking.(payment := payment.Value(), quote := quote.Value())];
      answer := Success(View(dossiers[id]));
    }

    /** The due query locks open quotes past their deadline; their payments may have changed since. */
    method RunExpireDue(due: seq<QuoteId>, now: int) returns (count: nat)
      requires Distinct(due)
      requires forall id :: id in due ==>
                 id in dossiers && Open(dossiers[id].quote) && dossiers[id].quote.expiresAt <= now
      modifies this
      ensures dossiers == ExpireEach(old(dossiers), due, now)
      ensures count == ExpiredCount(old(dossiers), due)
    {
      count := 0;
      for i := 0 to |due|
        invariant dossiers == ExpireEach(old(dossiers), due[..i], now)
        invariant count == ExpiredCount(old(dossiers), due[..i])
      {
        OneMoreExpires(old(dossiers), due, i, now);
        var skipped := SkipOrExpire(due[i], now);
        if !skipped {
          count := count + 1;
        }
      }
      assert due[..|due|] == due;
    }

    method SkipOrExpire(id: QuoteId, now: int) returns (skipped: bool)
      requires id in dossiers && Open(dossiers[id].quote) && dossiers[id].quote.expiresAt <= now
      modifies this
      ensures dossiers == old(dossiers)[id := ExpireDue(old(dossiers)[id], now)]
      ensures skipped == InReview(old(dossiers)[id].payment)
    {
      if InReview(dossiers[id].payment) {
        assert dossiers == dossiers[id := dossiers[id]];
        return true;
      }
      var quote := new QuoteRecord(dossiers[id].quote);
      var refused := quote.RunExpire(now);
      assert refused.None?;
      dossiers := dossiers[id := dossiers[id].(quote := quote.Value())];
      skipped := false;
    }

    method RunCancelQuote(id: QuoteId, reason: string) returns (error: Option<BookingError>)
      modifies this
      ensures id !in old(dossiers) ==> error == Some(NotFound) && dossiers == old(dossiers)
      ensures id in old(dossiers) ==>
                match CancelQuote(old(dossiers)[id], reason)
                case Success(d) => error == None && dossiers == old(dossiers)[id := d]
                case Failure(e) => error == Some(e) && dossiers == old(dossiers)
    {
      if id !in dossiers { return Some(NotFound); }
      var quote := new QuoteRecord(dossiers[id].quote);
      if quote.status != Sent && quote.status != PaymentStarted { return Some(InvalidState); }
      if InReview(dossiers[id].payment) { return Some(InvalidState); }
      error := quote.RunCancel(reason);
      if error.None? {
        dossiers := dossiers[id := dossiers[id].(quote := quote.Value())];
      }
    }
  }
}
