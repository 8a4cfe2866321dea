/**
 * Every run over the dossiers of manual bookings with their single advance: registrations, confirmations,
 * refunds, expiries, cancellations, mobility overrides, the general payment endpoints and whatever contract
 * management does, in any order and with any answers from the other components.
 */
module ManualBookingRuns {
  import opened Common
  import opened ManualBooking

  datatype Step =
    | Register(id: QuoteId, request: Request, user: UserId, available: bool, now: int)
    | CreateDirectly(id: QuoteId, request: Request, user: UserId, available: bool, issue: bool, answers: Answers)
    | ConfirmBooking(id: QuoteId, preview: Option<Booking>, decision: Decision, answers: Answers)
    | RefundAdvance(id: QuoteId, user: UserId, confirmed: bool, reason: string, now: int)
    | ExpireIfDue(id: QuoteId, now: int)
    | CancelOpen(id: QuoteId, reason: string)
    | OverrideMobility(id: QuoteId, amounts: Amounts, reason: string)
    | VerifyPayment(id: QuoteId, user: UserId, event: Option<QuoteId>, now: int)
    | RejectPayment(id: QuoteId, reason: string, now: int)
    | DecideOverbooked(id: QuoteId, user: UserId, approve: bool, event: Option<QuoteId>, now: int)
    | ConfirmRefunded(id: QuoteId)
    | ManageContract(id: QuoteId, contract: Option<ContractRow>)

  /** What a liquidation yields. */
  predicate Coherent(a: Amounts) {
    a.total == a.services + a.mobility && 0 < a.advance <= a.services && 0 <= a.mobility
  }

  function Kept<T>(outcome: Result<T, BookingError>, otherwise: T): T {
    if outcome.Success? then outcome.value else otherwise
  }

  /** The general endpoints accept only an event of the payment's own quote. */
  predicate OwnEvent(id: QuoteId, d: Dossier, event: Option<QuoteId>) {
    event == Some(id) && d.event.Some?
  }

  /** What a step does to the dossier it names. */
  function Effect(d: Dossier, step: Step): Dossier {
    match step
    case Register(_, _, _, _, _) => d
    case CreateDirectly(_, _, _, _, _, _) => d
    case ConfirmBooking(id, preview, decision, answers) => Confirm(id, d, preview, decision, answers).0
    case RefundAdvance(_, user, confirmed, reason, now) => Kept(Refund(d, user, confirmed, reason, now), d)
    case ExpireIfDue(_, now) => ExpireDue(d, now)
    case CancelOpen(_, reason) => Kept(CancelQuote(d, reason), d)
    case OverrideMobility(_, amounts, reason) => d.(quote := Kept(Override(d.quote, amounts, reason), d.quote))
    case VerifyPayment(id, user, event, now) =>
      if OwnEvent(id, d, event) then d.(payment := Kept(Verify(d.payment, user, id, now), d.payment)) else d
    case RejectPayment(_, reason, now) => d.(payment := Kept(Reject(d.payment, reason, now), d.payment))
    case DecideOverbooked(id, user, approve, event, now) =>
      if !approve then d.(payment := Kept(MarkRefundPending(d.payment), d.payment))
      else if OwnEvent(id, d, event) then d.(payment := Kept(ApproveOverbooked(d.payment, user, id, now), d.payment))
      else d
    case ConfirmRefunded(_) => d.(payment := Kept(ConfirmRefund(d.payment), d.payment))
    case ManageContract(_, contract) => d.(contract := contract)
  }

  ghost function Next(s: Store, step: Step): Store {
    if step.id in s then s[step.id := Effect(s[step.id], step)]
    else match step
      case Register(id, r, user, available, now) =>
        if StageError(s, r, now).None? then s[id := Staged(r, user, available)] else s
      case CreateDirectly(id, r, user, available, issue, answers) =>
        (match CreateBooked(s, id, r, user, available, issue, answers)
         case Success(d) => s[id := d]
         case Failure(_) => s)
      case _ => s
  }

  /** Amounts come from liquidations, an override leaves the services as they are, and only an event has
      contracts, rendered from its own amounts. */
  predicate Enabled(s: Store, step: Step) {
    match step
    case Register(_, r, _, _, _) => Coherent(r.amounts)
    case CreateDirectly(_, r, _, _, _, _) => Coherent(r.amounts)
    case OverrideMobility(id, amounts, _) =>
      Coherent(amounts) && (id in s ==> amounts.services == s[id].quote.amounts.services)
    case ManageContract(id, contract) =>
      id in s && s[id].event.Some? && (contract.Some? ==> contract.value.rendered == s[id].event.value)
    case _ => true
  }

  ghost predicate Run(ss: seq<Store>, steps: seq<Step>) {
    && |ss| == |steps| + 1 && ss[0] == map[]
    && forall i :: 0 <= i < |steps| ==> Enabled(ss[i], steps[i]) && ss[i + 1] == Next(ss[i], steps[i])
  }

  // ---------------------------------------------------------------- what every run keeps

  /** Quote, payment, event and contract of one dossier agree. */
  predicate InStep(id: QuoteId, d: Dossier) {
    && (d.event.Some? <==> d.quote.status == Converted)
    && (d.event.Some? <==> d.payment.status == Verified)
    && (d.event.Some? ==> d.event == Some(d.quote.amounts) && d.payment.event == Some(id) && d.payment.verifiedBy.Some?)
    && (d.event.None? ==> d.contract.None? && d.payment.event.None?)
    && (d.contract.Some? ==> d.contract.value.rendered == d.quote.amounts)
    && d.payment.amount == d.quote.amounts.advance && Coherent(d.quote.amounts)
    && d.quote.status != Sent
    && (InReview(d.payment) ==> d.quote.status == PaymentStarted)
  }

  ghost predicate HashesApart(s: Store) {
    forall i, j :: i in s && j in s && i != j && Active(s[i].quote) && Active(s[j].quote)
                   ==> s[i].quote.hash != s[j].quote.hash
  }

  ghost predicate Inv(s: Store) {
    (forall id :: id in s ==> InStep(id, s[id])) && HashesApart(s)
  }

  lemma BirthsAreInStep(s: Store, step: Step)
    requires Enabled(s, step) && step.id !in s
    ensures step.id in Next(s, step) ==>
              && InStep(step.id, Next(s, step)[step.id])
              && !HashTaken(s, Next(s, step)[step.id].quote.hash)
    ensures forall id :: id in s ==> id in Next(s, step) && Next(s, step)[id] == s[id]
    ensures Next(s, step).Keys <= s.Keys + {step.id}
  {
  }

  lemma EffectsStayInStep(s: Store, step: Step)
    requires Enabled(s, step) && step.id in s && InStep(step.id, s[step.id])
    ensures InStep(step.id, Effect(s[step.id], step))
    ensures Active(Effect(s[step.id], step).quote) ==> Active(s[step.id].quote)
    ensures Effect(s[step.id], step).quote.hash == s[step.id].quote.hash
  {
  }

  lemma StepKeepsInv(s: Store, step: Step)
    requires Inv(s) && Enabled(s, step)
    ensures Inv(Next(s, step))
  {
    var t := Next(s, step);
    if step.id in s {
      EffectsStayInStep(s, step);
    } else {
      BirthsAreInStep(s, step);
    }
    forall i, j | i in t && j in t && i != j && Active(t[i].quote) && Active(t[j].quote)
      ensures t[i].quote.hash != t[j].quote.hash
    {
      assert i in s && j in s ==> Active(s[i].quote) && Active(s[j].quote);
    }
  }

  lemma {:induction false} EveryRunKeepsInv(ss: seq<Store>, steps: seq<Step>, i: nat)
    requires Run(ss, steps) && i < |ss|
    ensures Inv(ss[i])
  {
    if i > 0 {
      EveryRunKeepsInv(ss, steps, i - 1);
      StepKeepsInv(ss[i - 1], steps[i - 1]);
    }
  }

  /** The event exists exactly while its quote is converted and its advance verified; an advance given back
      or rejected never coexists with an event; and the contract, when there is one, was rendered with the
      amounts of the event, which are those of the quote and of the receipt. */
  lemma EventQuoteAndAdvanceInStep(ss: seq<Store>, steps: seq<Step>, i: nat, id: QuoteId)
    requires Run(ss, steps) && i < |ss| && id in ss[i]
    ensures ss[i][id].event.Some? <==> ss[i][id].quote.status == Converted
    ensures ss[i][id].event.Some? <==> ss[i][id].payment.status == Verified
    ensures ss[i][id].payment.status in {RefundPending, Refunded, Rejected} ==>
        ss[i][id].event.None? && ss[i][id].contract.None?
    ensures ss[i][id].contract.Some? ==> ss[i][id].event == Some(ss[i][id].contract.value.rendered)
    ensures ss[i][id].event.Some? ==>
              ss[i][id].event == Some(ss[i][id].quote.amounts)
                  && ss[i][id].payment.amount == ss[i][id].event.value.advance
    ensures InReview(ss[i][id].payment) ==> ss[i][id].quote.status == PaymentStarted
  {
    EveryRunKeepsInv(ss, steps, i);
  }

  // ---------------------------------------------------------------- what is final

  /** What no later step undoes: a booking, a refund in progress, a finished refund, a rejection. */
  predicate Follows(d: Dossier, later: Dossier) {
    && (d.event.Some? ==> later.event == d.event && later.quote == d.quote && later.payment == d.payment)
    && (d.payment.status in {Refunded, Rejected} ==> later.payment == d.payment)
    && (d.payment.status == RefundPending ==> later.payment.status in {RefundPending, Refunded})
    && (!Active(d.quote) ==> !Active(later.quote))
  }

  lemma StepFollows(s: Store, step: Step, id: QuoteId)
    requires Inv(s) && Enabled(s, step) && id in s
    ensures id in Next(s, step) && Follows(s[id], Next(s, step)[id])
  {
    if id == step.id {
      assert InStep(id, s[id]);
    }
  }

  lemma {:induction false} WhatIsFinalStays(ss: seq<Store>, steps: seq<Step>, i: nat, j: nat, id: QuoteId)
    requires Run(ss, steps) && i <= j < |ss| && id in ss[i]
    ensures id in ss[j] && Follows(ss[i][id], ss[j][id])
    ensures ss[i][id].payment.status in {RefundPending, Refunded, Rejected} ==> ss[j][id].event.None?
    decreases j
  {
    EveryRunKeepsInv(ss, steps, j);
    if i < j {
      WhatIsFinalStays(ss, steps, i, j - 1, id);
      EveryRunKeepsInv(ss, steps, j - 1);
      StepFollows(ss[j - 1], steps[j - 1], id);
    }
  }

  ghost predicate Books(ss: seq<Store>, i: nat, id: QuoteId)
    requires i + 1 < |ss|
  {
    id in ss[i + 1] && ss[i + 1][id].event.Some? && (id in ss[i] ==> ss[i][id].event.None?)
  }

  /** No quote is ever booked twice. */
  lemma BookedAtMostOnce(ss: seq<Store>, steps: seq<Step>, i: nat, j: nat, id: QuoteId)
    requires Run(ss, steps) && i + 1 < |ss| && j + 1 < |ss| && Books(ss, i, id) && Books(ss, j, id)
    ensures i == j
  {
    if i < j {
      WhatIsFinalStays(ss, steps, i + 1, j, id);
    } else if j < i {
      WhatIsFinalStays(ss, steps, j + 1, i, id);
    }
  }

  /** Confirming again, by anyone and with any answers, changes nothing; while the contract stands and any
      approval is documented, it returns the booking that is already there. */
  lemma ConfirmingAgainChangesNothing(ss: seq<Store>, steps: seq<Step>, i: nat, id: QuoteId, preview: Booking,
                                      decision: Decision, answers: Answers)
    requires Run(ss, steps) && i < |ss| && id in ss[i] && ss[i][id].event.Some?
    ensures Confirm(id, ss[i][id], Some(preview), decision, answers).0 == ss[i][id]
    ensures Confirm(id, ss[i][id], Some(preview), decision, answers).1 == Success(View(ss[i][id]))
            <==> ss[i][id].contract.Some? && (decision.approve ==> Documented(decision))
  {
    EveryRunKeepsInv(ss, steps, i);
  }

  /** When a confirmation books: what was previewed is unchanged, still open and in the future, and whoever
      confirms may do so; then capacity is free, or only the show threshold is exceeded and that was approved;
      and a payment already held for approval needs the approval in any case. */
  lemma ConfirmsExactlyWhen(ss: seq<Store>, steps: seq<Step>, i: nat, id: QuoteId, preview: Booking,
                            decision: Decision, answers: Answers)
    requires Run(ss, steps) && i < |ss| && id in ss[i] && ss[i][id].event.None?
    ensures Confirm(id, ss[i][id], Some(preview), decision, answers).0.event.Some? <==>
              && preview == View(ss[i][id]) && InReview(ss[i][id].payment)
              && answers.now < ss[i][id].quote.expiresAt && answers.now < ss[i][id].quote.startsAt
              && Supervised(ss[i][id], decision) && (decision.approve ==> Documented(decision))
              && answers.packageActive && answers.contractIssues
              && (answers.availability.status.Available? ||
                  (answers.availability.status.RequiresApproval? && answers.availability.shortages == []
                      && decision.approve))
              && (ss[i][id].payment.status == RequiresManualApproval ==> decision.approve)
  {
    EveryRunKeepsInv(ss, steps, i);
  }
}
