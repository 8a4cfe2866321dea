/**
 * What each operation on a manual booking does in any run: exactly when it goes ahead and all that it changes, which is
 * never more than one dossier.
 */
module ManualBookingOutcomes {
  import opened Common
  import opened ManualBooking
  import opened ManualBookingRuns

  // ---------------------------------------------------------------- staging

  /** What lets a request be staged: the receipt is of its advance, it is in time, and nobody is booking the same. */
  ghost predicate Stageable(s: Store, r: Request, now: int) {
    && r.paid == r.amounts.advance && r.paid > 0 && r.startsAt > now && r.expiresAt > now
    && forall other :: other in s && s[other].quote.hash == r.hash ==>
         s[other].quote.status !in {PaymentStarted, Converted}
  }

  /** A request can be staged exactly when it is; its quote is one just sent whose payment starts there and then. */
  lemma StagesExactlyWhen(s: Store, r: Request, user: UserId, available: bool, now: int)
    ensures StageError(s, r, now).None? <==> Stageable(s, r, now)
    ensures Stageable(s, r, now) ==>
              StartPayment(Quote(Sent, r.startsAt, r.expiresAt, r.hash, r.amounts, None), now)
              == Success(Staged(r, user, available).quote)
  {
  }

  /** An open quote starts its payment before its deadline and once, and closes as asked: cancelled at any time, expired
      from its deadline on, converted once its payment started. A closed one does none of this. */
  lemma QuotesMoveExactlyWhen(q: Quote, now: int, reason: string)
    ensures StartPayment(q, now) == (
              if q.status == PaymentStarted || (q.status == Sent && now < q.expiresAt)
              then Success(q.(status := PaymentStarted)) else Failure(InvalidState))
    ensures Cancel(q, reason) == (
              if q.status == PaymentStarted || q.status == Sent
              then Success(q.(status := QuoteCancelled, cancellation := if |reason| > 0 then Some(reason) else None))
              else Failure(InvalidState))
    ensures Expire(q, now) == (
              if (q.status == PaymentStarted || q.status == Sent) && q.expiresAt <= now
              then Success(q.(status := QuoteExpired)) else Failure(InvalidState))
    ensures Convert(q) == (
              if q.status == PaymentStarted then Success(q.(status := Converted)) else Failure(InvalidState))
  {
  }

  /** A registration under a new reference stages its request, with the advance to be verified, or to be approved when
      there was no capacity; any other registration changes nothing. */
  lemma RegistrationsStageTheirRequest(ss: seq<Store>, steps: seq<Step>, i: nat)
    requires Run(ss, steps) && i < |steps| && steps[i].Register?
    ensures ss[i + 1] != ss[i] <==> steps[i].id !in ss[i] && Stageable(ss[i], steps[i].request, steps[i].now)
    ensures ss[i + 1] != ss[i] ==>
              var r := steps[i].request;
              var held := if steps[i].available then PendingVerification else RequiresManualApproval;
              ss[i + 1] == ss[i][steps[i].id := Dossier(
                Quote(PaymentStarted, r.startsAt, r.expiresAt, r.hash, r.amounts, None),
                Payment(held, r.amounts.advance, Some(steps[i].user), None, None, None, None), None, None)]
  {
    StagesExactlyWhen(ss[i], steps[i].request, steps[i].user, steps[i].available, steps[i].now);
    assert steps[i].id in ss[i] ==> ss[i][steps[i].id := ss[i][steps[i].id]] == ss[i];
  }

  /** The dossier once booked by `user` at `now`. */
  function Booked(id: QuoteId, d: Dossier, user: UserId, now: int, draft: bool): Dossier {
    Dossier(d.quote.(status := Converted),
            d.payment.(status := Verified, verifiedBy := Some(user), verifiedAt := Some(now), event := Some(id),
                       rejection := None),
            Some(d.quote.amounts), Some(ContractRow(draft, d.quote.amounts)))
  }

  lemma FinalizingBooks(id: QuoteId, d: Dossier, user: UserId, now: int, draft: bool)
    ensures Finalize(id, d, user, now, draft, d.quote.amounts).Success? <==>
              d.payment.status in {PendingVerification, RequiresManualApproval} && d.quote.status == PaymentStarted
    ensures Finalize(id, d, user, now, draft, d.quote.amounts).Success? ==>
              Finalize(id, d, user, now, draft, d.quote.amounts).value == Booked(id, d, user, now, draft)
  {
  }

  /** A direct contract under a new reference books at once when its request can be staged, there is capacity and, if it
      is to be issued, its document is; otherwise it leaves nothing behind. */
  lemma DirectContractsBookOrLeaveNothing(ss: seq<Store>, steps: seq<Step>, i: nat)
    requires Run(ss, steps) && i < |steps| && steps[i].CreateDirectly?
    ensures ss[i + 1] != ss[i] <==>
              && steps[i].id !in ss[i] && Stageable(ss[i], steps[i].request, steps[i].answers.now)
              && steps[i].answers.availability.status.Available? && (steps[i].issue ==> steps[i].answers.contractIssues)
    ensures ss[i + 1] != ss[i] ==>
              var r, user, now := steps[i].request, steps[i].user, steps[i].answers.now;
              ss[i + 1] == ss[i][steps[i].id := Dossier(
                Quote(Converted, r.startsAt, r.expiresAt, r.hash, r.amounts, None),
                Payment(Verified, r.amounts.advance, Some(user), Some(user), Some(now), Some(steps[i].id), None),
                Some(r.amounts), Some(ContractRow(!steps[i].issue, r.amounts)))]
  {
    var r, user, now := steps[i].request, steps[i].user, steps[i].answers.now;
    StagesExactlyWhen(ss[i], r, user, steps[i].available, now);
    FinalizingBooks(steps[i].id, Staged(r, user, steps[i].available), user, now, !steps[i].issue);
    assert steps[i].id in ss[i] ==> ss[i][steps[i].id := ss[i][steps[i].id]] == ss[i];
  }

  // ---------------------------------------------------------------- confirming

  /** What was previewed still stands, in time, and whoever confirms it may. */
  predicate Ready(d: Dossier, preview: Option<Booking>, decision: Decision, a: Answers) {
    && preview == Some(View(d)) && d.payment.status in {PendingVerification, RequiresManualApproval}
    && a.now < d.quote.expiresAt && a.now < d.quote.startsAt && a.packageActive
    && (decision.approve ==> |decision.reason| >= REASON_LENGTH)
    && (d.payment.registeredBy == Some(decision.user) ==> decision.mayVerifyOwn && |decision.reason| >= REASON_LENGTH)
  }

  /** Capacity is there, or only the show threshold is exceeded and that was approved. */
  predicate Fits(decision: Decision, a: Answers) {
    || a.availability.status.Available?
    || (decision.approve && a.availability.status.RequiresApproval? && a.availability.shortages == [])
  }

  /** A confirmation books, or holds the advance for approval when there is no capacity, or changes nothing. */
  lemma ConfirmationsBookOrHold(ss: seq<Store>, steps: seq<Step>, i: nat)
    requires Run(ss, steps) && i < |steps| && steps[i].ConfirmBooking? && steps[i].id in ss[i]
    ensures var id, decision, a, d := steps[i].id, steps[i].decision, steps[i].answers, ss[i][steps[i].id];
            ss[i + 1] ==
              if d.event.None? && Ready(d, steps[i].preview, decision, a) && !Fits(decision, a)
              then ss[i][id := d.(payment := d.payment.(status := RequiresManualApproval))]
              else if d.event.None? && Ready(d, steps[i].preview, decision, a) && a.contractIssues
                      && (d.payment.status == RequiresManualApproval ==> decision.approve)
              then ss[i][id := Booked(id, d, decision.user, a.now, false)]
              else ss[i]
  {
    var id, d := steps[i].id, ss[i][steps[i].id];
    EveryRunKeepsInv(ss, steps, i);
    assert InStep(id, d) && ss[i][id := d] == ss[i];
    FinalizingBooks(id, d, steps[i].decision.user, steps[i].answers.now, false);
  }

  /** What a confirmation answers: the booking as it then stands when it booked, held or had booked before; and, in this
      order, that the approval is not documented, that there is no preview, that the booking changed since, that it is
      not ready, that its package is gone, that it waits for an approval, that its contract was not issued. */
  lemma ConfirmationsAnswer(ss: seq<Store>, steps: seq<Step>, i: nat, id: QuoteId, preview: Option<Booking>,
                            decision: Decision, a: Answers)
    requires Run(ss, steps) && i < |ss| && id in ss[i]
    ensures var d, (after, answer) := ss[i][id], Confirm(id, ss[i][id], preview, decision, a);
            var ready := Ready(d, preview, decision, a.(packageActive := true));
            answer ==
              if decision.approve && |decision.reason| < REASON_LENGTH then Failure(Invalid)
              else if preview.None? then Failure(NotFound)
              else if d.event.Some? then if d.contract.Some? then Success(View(d)) else Failure(Invalid)
              else if preview != Some(View(d)) then Failure(InUse)
              else if !ready then Failure(Invalid)
              else if !a.packageActive then Failure(NotFound)
              else if !Fits(decision, a) then Success(View(after))
              else if d.payment.status == RequiresManualApproval && !decision.approve then Failure(InUse)
              else if a.contractIssues then Success(View(after)) else Failure(NotIssued)
  {
    var d := ss[i][id];
    EveryRunKeepsInv(ss, steps, i);
    assert InStep(id, d);
    FinalizingBooks(id, d, decision.user, a.now, false);
  }

  /** A booking is confirmed, or held, only as it was when it was previewed: in between neither its quote, its advance,
      its event nor its contract changed. */
  lemma ConfirmsOnlyWhatWasPreviewed(ss: seq<Store>, steps: seq<Step>, j: nat, i: nat)
    requires Run(ss, steps) && j <= i < |steps| && steps[i].ConfirmBooking? && steps[i].id in ss[j]
    requires steps[i].preview == Some(View(ss[j][steps[i].id])) && ss[i + 1] != ss[i]
    ensures steps[i].id in ss[i]
    ensures var before, d := ss[j][steps[i].id], ss[i][steps[i].id];
            && d.quote.(cancellation := before.quote.cancellation) == before.quote
            && d.payment.status == before.payment.status && d.payment.amount == before.payment.amount
            && d.payment.registeredBy == before.payment.registeredBy
            && d.event == before.event == None && d.contract == before.contract
  {
    WhatIsFinalStays(ss, steps, j, i, steps[i].id);
    ConfirmationsBookOrHold(ss, steps, i);
  }

  /** And a change of anything else than the reason of a cancellation is noticed. */
  lemma OnlyCancellationReasonsGoUnnoticed(d: Dossier, later: Dossier)
    requires View(d) == View(later)
    ensures later.quote.(cancellation := d.quote.cancellation) == d.quote
    ensures later.event == d.event && later.contract == d.contract && later.payment.status == d.payment.status
    ensures later.payment.amount == d.payment.amount && later.payment.registeredBy == d.payment.registeredBy
    ensures d.quote.(cancellation := None) == View(d).quote && View(d) == View(d.(quote := View(d).quote))
  {
  }

  // ---------------------------------------------------------------- closing the quote

  lemma ClosingFreesTheHash(s: Store, t: Store, id: QuoteId)
    requires HashesApart(s) && id in s && Active(s[id].quote) && id in t && !Active(t[id].quote)
    requires t == s[id := t[id]]
    ensures !HashTaken(t, s[id].quote.hash)
  {
    forall other | other in t
      ensures !(Active(t[other].quote) && t[other].quote.hash == s[id].quote.hash)
    {
      if other != id {
        assert other in s && s[other] == t[other];
      }
    }
  }

  /** A quote whose deadline passed expires exactly when its advance is not under review, and frees its request. */
  lemma ExpiriesFreeTheRequest(ss: seq<Store>, steps: seq<Step>, i: nat)
    requires Run(ss, steps) && i < |steps| && steps[i].ExpireIfDue? && steps[i].id in ss[i]
    ensures var id, d := steps[i].id, ss[i][steps[i].id];
            if d.quote.status == PaymentStarted && d.quote.expiresAt <= steps[i].now
               && d.payment.status !in {PendingVerification, RequiresManualApproval}
            then ss[i + 1] == ss[i][id := d.(quote := d.quote.(status := QuoteExpired))]
                 && !HashTaken(ss[i + 1], d.quote.hash)
            else ss[i + 1] == ss[i]
  {
    var id, d := steps[i].id, ss[i][steps[i].id];
    EveryRunKeepsInv(ss, steps, i);
    assert InStep(id, d) && ss[i][id := d] == ss[i];
    if ss[i + 1] != ss[i] {
      ClosingFreesTheHash(ss[i], ss[i + 1], id);
    }
  }

  /** A quote is cancelled exactly while it is open and its advance is not under review, and frees its request. */
  lemma CancellationsFreeTheRequest(ss: seq<Store>, steps: seq<Step>, i: nat)
    requires Run(ss, steps) && i < |steps| && steps[i].CancelOpen? && steps[i].id in ss[i]
    ensures var id, d, reason := steps[i].id, ss[i][steps[i].id], steps[i].reason;
            if d.quote.status == PaymentStarted && d.payment.status !in {PendingVerification, RequiresManualApproval}
            then ss[i + 1] == ss[i][id := d.(quote := d.quote.(
                   status := QuoteCancelled, cancellation := if reason == "" then None else Some(reason)))]
                 && !HashTaken(ss[i + 1], d.quote.hash)
            else ss[i + 1] == ss[i]
  {
    var id, d := steps[i].id, ss[i][steps[i].id];
    EveryRunKeepsInv(ss, steps, i);
    assert InStep(id, d) && ss[i][id := d] == ss[i];
    if ss[i + 1] != ss[i] {
      ClosingFreesTheHash(ss[i], ss[i + 1], id);
    }
  }

  /** An override replaces the amounts of a quote not yet closed, with a reason and the same advance. */
  lemma OverridesReplaceTheAmounts(ss: seq<Store>, steps: seq<Step>, i: nat)
    requires Run(ss, steps) && i < |steps| && steps[i].OverrideMobility? && steps[i].id in ss[i]
    ensures var id, d, amounts := steps[i].id, ss[i][steps[i].id], steps[i].amounts;
            ss[i + 1] ==
              if d.quote.status == PaymentStarted && steps[i].reason != "" && amounts.advance == d.payment.amount
              then ss[i][id := d.(quote := d.quote.(amounts := amounts))] else ss[i]
  {
    var id, d := steps[i].id, ss[i][steps[i].id];
    EveryRunKeepsInv(ss, steps, i);
    assert InStep(id, d) && ss[i][id := d] == ss[i];
  }

  // ---------------------------------------------------------------- the advance

  /** A refund changes the advance exactly when it is documented, nothing is booked, and the advance is held for
      approval or, to confirm it, already waiting for its refund. */
  ghost predicate Refundable(d: Dossier, confirmed: bool, reason: string) {
    && |reason| >= REASON_LENGTH && d.event.None?
    && d.payment.status == if confirmed then RefundPending else RequiresManualApproval
  }

  /** In every run a refund that goes ahead leaves the advance as asked, by whom and when, and the request over: a
      quote still open is cancelled with the reason, so that its request can be staged again, and a closed one stays as
      it was. A refund that does not go ahead changes nothing. */
  lemma RefundsEndTheRequest(ss: seq<Store>, steps: seq<Step>, i: nat)
    requires Run(ss, steps) && i < |steps| && steps[i].RefundAdvance? && steps[i].id in ss[i]
    ensures steps[i].id in ss[i + 1]
    ensures var id, step, d, d' := steps[i].id, steps[i], ss[i][steps[i].id], ss[i + 1][steps[i].id];
            && (ss[i + 1] != ss[i] ==> Refundable(d, step.confirmed, step.reason))
            && (Refundable(d, step.confirmed, step.reason) ==>
                  && d'.payment == d.payment.(status := if step.confirmed then Refunded else RefundPending,
                                              verifiedBy := Some(step.user), verifiedAt := Some(step.now))
                  && d'.quote == (if Open(d.quote)
                                  then d.quote.(status := QuoteCancelled, cancellation := Some(step.reason))
                                  else d.quote)
                  && d'.event == None && d'.contract == None && !Active(d'.quote)
                  && (Open(d.quote) ==> !HashTaken(ss[i + 1], d.quote.hash)))
            && forall other :: other in ss[i] && other != id ==> other in ss[i + 1] && ss[i + 1][other] == ss[i][other]
  {
    EveryRunKeepsInv(ss, steps, i);
    EveryRunKeepsInv(ss, steps, i + 1);
    var id, step, d := steps[i].id, steps[i], ss[i][steps[i].id];
    assert InStep(id, d);
    assert ss[i + 1] == ss[i][id := Effect(d, step)];
    assert !Refundable(d, step.confirmed, step.reason) ==> Effect(d, step) == d && ss[i + 1] == ss[i];
    if Refundable(d, step.confirmed, step.reason) && Open(d.quote) {
      ClosingFreesTheHash(ss[i], ss[i + 1], id);
    }
  }

  /** What a refund answers: the booking when it goes ahead or was already as asked; otherwise that it is not documented
      or that an event stands, and then that the advance is not in a state for it. */
  lemma RefundsAnswer(d: Dossier, user: UserId, confirmed: bool, reason: string, now: int)
    requires Open(d.quote) || d.quote.status in {QuoteCancelled, QuoteExpired}
    ensures var answer := Refund(d, user, confirmed, reason, now);
            if |reason| < REASON_LENGTH || d.event.Some? then answer == Failure(Invalid)
            else if d.payment.status == (if confirmed then Refunded else RefundPending) then answer == Success(d)
            else if Refundable(d, confirmed, reason) then answer.Success? else answer == Failure(InvalidState)
  {
  }

  /** The general endpoints decide on an advance without closing its quote: a rejection needs a reason and an advance
      under review, giving it up needs one held for approval, and only a refund under way is confirmed. They never
      verify an advance, since only bookings have events. */
  lemma GeneralEndpointsOnlyCloseTheAdvance(ss: seq<Store>, steps: seq<Step>, i: nat)
    requires Run(ss, steps) && i < |steps| && steps[i].id in ss[i]
    requires || steps[i].VerifyPayment? || steps[i].RejectPayment?
             || steps[i].DecideOverbooked? || steps[i].ConfirmRefunded?
    ensures var id, d := steps[i].id, ss[i][steps[i].id];
            ss[i + 1] ==
              if steps[i].RejectPayment? && steps[i].reason != ""
                 && d.payment.status in {PendingVerification, RequiresManualApproval}
              then ss[i][id := d.(payment := d.payment.(status := Rejected, rejection := Some(steps[i].reason),
                                                        verifiedAt := Some(steps[i].now)))]
              else if steps[i].DecideOverbooked? && !steps[i].approve && d.payment.status == RequiresManualApproval
              then ss[i][id := d.(payment := d.payment.(status := RefundPending))]
              else if steps[i].ConfirmRefunded? && d.payment.status == RefundPending
              then ss[i][id := d.(payment := d.payment.(status := Refunded))]
              else ss[i]
  {
    var id, d := steps[i].id, ss[i][steps[i].id];
    EveryRunKeepsInv(ss, steps, i);
    assert InStep(id, d) && ss[i][id := d] == ss[i];
  }
}
