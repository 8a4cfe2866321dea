/**
 * One worker's cycle over the outbox: claim a batch under a lease, send each message outside any
 * transaction, and save each result in a transaction of its own unless the row was resolved meanwhile.
 */
module OutboxDispatch {
  import opened Common
  import opened OutboxMessages

  type RowId = nat

  /** What a call to the gateway produced: a receipt, or a classified error. */
  datatype Reply =
    | Accepted(externalId: string, conversation: int)
    | Rejected(error: string, permanent: bool)

  datatype DispatchOutcome = WasSent | WasRescheduled | HasFailedForGood | WasDiscarded | NotSaved

  datatype Summary = Summary(claimed: nat, sent: nat, rescheduled: nat, failed: nat, discarded: nat, errors: nat)

  const MISSING_PAYLOAD := Rejected("El mensaje no tiene contenido para enviar", true)

  /** The reply of a send: a claimed copy without content never reaches the gateway. */
  function SendReply(snapshot: Message, gateway: Reply): Reply {
    if snapshot.payload.None? then MISSING_PAYLOAD else gateway
  }

  // ---------------------------------------------------------------- claiming

  predicate Due(rows: map<RowId, Message>, id: RowId, now: int) {
    id in rows && rows[id].status == Pending && rows[id].nextAttemptAt <= now
  }

  /** `picked` is a possible result of the claiming query: due rows, each once, at most `limit`. */
  ghost predicate Claimable(rows: map<RowId, Message>, picked: seq<RowId>, now: int, limit: nat) {
    Distinct(picked) && |picked| <= limit && forall i :: 0 <= i < |picked| ==> Due(rows, picked[i], now)
  }

  function Leased(m: Message, until: int): Message {
    m.(nextAttemptAt := until)
  }

  function LeaseRows(rows: map<RowId, Message>, picked: seq<RowId>, until: int): map<RowId, Message>
    requires forall i :: 0 <= i < |picked| ==> picked[i] in rows
  {
    map id | id in rows :: if id in picked then Leased(rows[id], until) else rows[id]
  }

  // ---------------------------------------------------------------- saving

  /** The row after the saving transaction of a result, and the outcome the cycle reports. */
  function SaveReply(m: Message, reply: Reply, now: int, schedule: seq<int>): (Message, DispatchOutcome)
    requires ValidSchedule(schedule)
  {
    if m.status != Pending then (m, WasDiscarded)
    else match reply
      case Accepted(id, conversation) =>
        (match MarkSent(m, id, conversation, now)
         case Success(m') => (m', WasSent)
         case Failure(_) => (m, NotSaved))
      case Rejected(error, permanent) =>
        (match RegisterFailure(m, error, permanent, now, schedule)
         case Success(m') => (m', if m'.status == Failed then HasFailedForGood else WasRescheduled)
         case Failure(_) => (m, NotSaved))
  }

  /** The outcome tells what became of the row: resolved before, sent, waiting again or failed; a receipt whose id
      cannot be stored leaves it as it was, and so does any result for a row resolved meanwhile. A copy without content
      is never sent, and its row fails for good. */
  lemma OutcomesTellWhatWasSaved(m: Message, snapshot: Message, gateway: Reply, now: int, schedule: seq<int>)
    requires ValidSchedule(schedule)
    ensures var reply := SendReply(snapshot, gateway);
            var (m', outcome) := SaveReply(m, reply, now, schedule);
            && (snapshot.payload.Some? ==> reply == gateway)
            && (outcome == WasDiscarded <==> m.status != Pending)
            && (outcome == NotSaved <==> m.status == Pending && reply.Accepted? && !ValidExternalId(reply.externalId))
            && (outcome == WasSent <==> m.status == Pending && m'.status == Sent)
            && (outcome == WasRescheduled <==> m.status == m'.status == Pending && reply.Rejected?)
            && (outcome == HasFailedForGood <==> m.status == Pending && m'.status == Failed)
            && (outcome in {WasDiscarded, NotSaved} ==> m' == m)
            && (outcome == WasSent ==> m'.externalId == Some(reply.externalId) && m'.sentAt == Some(now)
                                       && m'.conversationId == Some(reply.conversation) && m'.attempts == m.attempts)
            && (snapshot.payload.None? && m.status == Pending ==> outcome == HasFailedForGood)
  {
  }

  function Tally(outcomes: seq<DispatchOutcome>): Summary {
    Summary(|outcomes|, Count(outcomes, WasSent), Count(outcomes, WasRescheduled),
            Count(outcomes, HasFailedForGood), Count(outcomes, WasDiscarded), Count(outcomes, NotSaved))
  }

  function Count(outcomes: seq<DispatchOutcome>, o: DispatchOutcome): nat {
    if outcomes == [] then 0
    else Count(outcomes[..|outcomes| - 1], o) + (if outcomes[|outcomes| - 1] == o then 1 else 0)
  }

  lemma {:induction false} CountIsTheMultiplicity(outcomes: seq<DispatchOutcome>, o: DispatchOutcome)
    ensures Count(outcomes, o) == multiset(outcomes)[o]
  {
    if outcomes != [] {
      CountIsTheMultiplicity(outcomes[..|outcomes| - 1], o);
      assert outcomes == outcomes[..|outcomes| - 1] + [outcomes[|outcomes| - 1]];
    }
  }

  lemma {:induction false} CountsAddUp(outcomes: seq<DispatchOutcome>)
    ensures |outcomes| == Count(outcomes, WasSent) + Count(outcomes, WasRescheduled) + Count(outcomes, HasFailedForGood)
                          + Count(outcomes, WasDiscarded) + Count(outcomes, NotSaved)
  {
    if outcomes != [] {
      CountsAddUp(outcomes[..|outcomes| - 1]);
    }
  }

  /** Every claimed message is counted under exactly one outcome, its own. */
  lemma SummaryAddsUp(outcomes: seq<DispatchOutcome>)
    ensures var s, each := Tally(outcomes), multiset(outcomes);
      && s.claimed == |outcomes| == s.sent + s.rescheduled + s.failed + s.discarded + s.errors
      && s.sent == each[WasSent] && s.rescheduled == each[WasRescheduled] && s.failed == each[HasFailedForGood]
      && s.discarded == each[WasDiscarded] && s.errors == each[NotSaved]
  {
    CountsAddUp(outcomes);
    CountIsTheMultiplicity(outcomes, WasSent);
    CountIsTheMultiplicity(outcomes, WasRescheduled);
    CountIsTheMultiplicity(outcomes, HasFailedForGood);
    CountIsTheMultiplicity(outcomes, WasDiscarded);
    CountIsTheMultiplicity(outcomes, NotSaved);
  }

  lemma {:induction false} NoneCountsZero(outcomes: seq<DispatchOutcome>, o: DispatchOutcome)
    requires o !in outcomes
    ensures Count(outcomes, o) == 0
  {
    if outcomes != [] {
      NoneCountsZero(outcomes[..|outcomes| - 1], o);
    }
  }

  /** Rows after the first `k` claimed messages were dispatched, with no other writer. */
  ghost function Dispatched(rows: map<RowId, Message>, picked: seq<RowId>, replies: seq<Reply>, nows: seq<int>,
                            schedule: seq<int>, k: nat): map<RowId, Message>
    requires ValidSchedule(schedule) && k <= |picked| == |replies| == |nows|
  {
    map id | id in rows ::
      if exists i :: 0 <= i < k && picked[i] == id
      then var i :| 0 <= i < k && picked[i] == id;
           SaveReply(rows[id], SendReply(rows[id], replies[i]), nows[i], schedule).0
      else rows[id]
  }

  /** What the cycle reports for each claimed row, in claiming order. */
  function Outcomes(rows: map<RowId, Message>, picked: seq<RowId>, replies: seq<Reply>, nows: seq<int>,
                    schedule: seq<int>): seq<DispatchOutcome>
    requires ValidSchedule(schedule) && |picked| == |replies| == |nows|
    requires forall i :: 0 <= i < |picked| ==> picked[i] in rows
  {
    seq(|picked|, i requires 0 <= i < |picked| =>
      SaveReply(rows[picked[i]], SendReply(rows[picked[i]], replies[i]), nows[i], schedule).1)
  }

  lemma UntouchedBeforeItsTurn(rows: map<RowId, Message>, picked: seq<RowId>, replies: seq<Reply>, nows: seq<int>,
                               schedule: seq<int>, k: nat)
    requires ValidSchedule(schedule) && k < |picked| == |replies| == |nows| && Distinct(picked) && picked[k] in rows
    ensures Dispatched(rows, picked, replies, nows, schedule, k)[picked[k]] == rows[picked[k]]
  {
  }

  lemma OneMoreDispatched(rows: map<RowId, Message>, picked: seq<RowId>, replies: seq<Reply>, nows: seq<int>,
                          schedule: seq<int>, k: nat)
    requires ValidSchedule(schedule) && k < |picked| == |replies| == |nows| && Distinct(picked) && picked[k] in rows
    ensures Dispatched(rows, picked, replies, nows, schedule, k + 1)
            == Dispatched(rows, picked, replies, nows, schedule, k)[picked[k] :=
                 SaveReply(rows[picked[k]], SendReply(rows[picked[k]], replies[k]), nows[k], schedule).0]
  {
    var before := Dispatched(rows, picked, replies, nows, schedule, k);
    var after := Dispatched(rows, picked, replies, nows, schedule, k + 1);
    forall id | id in rows
      ensures after[id] == if id == picked[k]
                           then SaveReply(rows[id], SendReply(rows[id], replies[k]), nows[k], schedule).0
                           else before[id]
    {
      if id == picked[k] {
        assert exists i :: 0 <= i < k + 1 && picked[i] == id;
      }
    }
  }

  class OutboxRepository {
    var rows: map<RowId, Message>

    constructor ()
      ensures rows == map[]
    {
      rows := map[];
    }

    /** Stamps the rows the claiming query returned and hands out copies of them. */
    method ClaimDue(picked: seq<RowId>, now: int, limit: nat, lease: int) returns (claimed: seq<Message>)
      requires Claimable(rows, picked, now, limit)
      modifies this
      ensures rows == LeaseRows(old(rows), picked, now + lease) && rows.Keys == old(rows).Keys
      ensures forall id :: id in rows ==>
                rows[id] == if id in picked then old(rows)[id].(nextAttemptAt := now + lease) else old(rows)[id]
      ensures |claimed| == |picked| && forall i :: 0 <= i < |picked| ==> claimed[i] == rows[picked[i]]
    {
      claimed := [];
      for i := 0 to |picked|
        invariant rows.Keys == old(rows).Keys
        invariant forall id :: id in rows ==>
          rows[id] == if id in picked[..i] then Leased(old(rows)[id], now + lease) else old(rows)[id]
        invariant |claimed| == i && forall j :: 0 <= j < i ==> claimed[j] == rows[picked[j]]
      {
        var stamped := Leased(rows[picked[i]], now + lease);
        rows := rows[picked[i] := stamped];
        claimed := claimed + [stamped];
        assert picked[..i + 1] == picked[..i] + [picked[i]];
      }
      assert picked[..|picked|] == picked;
    }

    /** One message: classify the send, re-read the row under lock, save unless it was resolved. */
    method Dispatch(id: RowId, snapshot: Message, gateway: Reply, now: int, schedule: seq<int>)
      returns (outcome: DispatchOutcome)
      requires ValidSchedule(schedule)
      modifies this
      ensures id !in old(rows) ==> rows == old(rows) && outcome == WasDiscarded
      ensures id in old(rows) ==>
        var (m, o) := SaveReply(old(rows)[id], SendReply(snapshot, gateway), now, schedule);
        rows == old(rows)[id := m] && outcome == o
    {
      var reply := SendReply(snapshot, gateway);
      if id !in rows || rows[id].status != Pending {
        assert id in rows ==> rows[id := rows[id]] == rows;
        return WasDiscarded;
      }
      var current := new OutboxMessage(rows[id]);
      if reply.Accepted? {
        var error := current.RunMarkSent(reply.externalId, reply.conversation, now);
        if error.Some? {
          assert rows[id := rows[id]] == rows;
          return NotSaved;
        }
        rows := rows[id := current.Value()];
        return WasSent;
      }
      var error := current.RunRegisterFailure(reply.error, reply.permanent, now, schedule);
      rows := rows[id := current.Value()];
      outcome := if current.status == Failed then HasFailedForGood else WasRescheduled;
    }

    /** The next claimed message, its row still as it was leased. */
    method DispatchNext(ghost leased: map<RowId, Message>, picked: seq<RowId>, gateway: seq<Reply>, nows: seq<int>,
                        schedule: seq<int>, k: nat, snapshot: Message)
      returns (outcome: DispatchOutcome)
      requires ValidSchedule(schedule) && k < |picked| == |gateway| == |nows| && Distinct(picked)
      requires picked[k] in leased && snapshot == leased[picked[k]] && snapshot.status == Pending
      requires rows == Dispatched(leased, picked, gateway, nows, schedule, k)
      modifies this
      ensures rows == Dispatched(leased, picked, gateway, nows, schedule, k + 1)
      ensures outcome == SaveReply(snapshot, SendReply(snapshot, gateway[k]), nows[k], schedule).1
      ensures outcome != WasDiscarded
    {
      UntouchedBeforeItsTurn(leased, picked, gateway, nows, schedule, k);
      outcome := Dispatch(picked[k], snapshot, gateway[k], nows[k], schedule);
      OneMoreDispatched(leased, picked, gateway, nows, schedule, k);
    }

    /** The loop over the claimed messages; a failure to save one does not stop the others. */
    method DispatchAll(ghost leased: map<RowId, Message>, claimed: seq<Message>, picked: seq<RowId>,
                       gateway: seq<Reply>, nows: seq<int>, schedule: seq<int>)
      returns (outcomes: seq<DispatchOutcome>)
      requires ValidSchedule(schedule) && |picked| == |gateway| == |nows| == |claimed| && Distinct(picked)
      requires forall i :: 0 <= i < |picked| ==>
                 picked[i] in leased && claimed[i] == leased[picked[i]] && claimed[i].status == Pending
      requires rows == leased
      modifies this
      ensures rows == Dispatched(leased, picked, gateway, nows, schedule, |picked|)
      ensures outcomes == Outcomes(leased, picked, gateway, nows, schedule) && WasDiscarded !in outcomes
    {
      outcomes := [];
      for k := 0 to |picked|
        invariant rows == Dispatched(leased, picked, gateway, nows, schedule, k)
        invariant |outcomes| == k
        invariant forall i :: 0 <= i < k ==>
          outcomes[i] == SaveReply(claimed[i], SendReply(claimed[i], gateway[i]), nows[i], schedule).1
        invariant WasDiscarded !in outcomes
      {
        var outcome := DispatchNext(leased, picked, gateway, nows, schedule, k, claimed[k]);
        outcomes := outcomes + [outcome];
      }
    }

    /** A whole cycle with no concurrent writer: claimed at `now`, every row gets the result of its own send, saved
        at an instant of its own. */
    method Execute(picked: seq<RowId>, gateway: seq<Reply>, now: int, nows: seq<int>, limit: nat, lease: int,
                   schedule: seq<int>)
      returns (summary: Summary)
      requires ValidSchedule(schedule) && |gateway| == |picked| == |nows|
      requires Claimable(rows, picked, now, limit)
      modifies this
      ensures rows == Dispatched(LeaseRows(old(rows), picked, now + lease), picked, gateway, nows, schedule, |picked|)
      ensures summary == Tally(Outcomes(LeaseRows(old(rows), picked, now + lease), picked, gateway, nows, schedule))
      ensures summary.claimed == summary.sent + summary.rescheduled + summary.failed + summary.errors
    {
      var claimed := ClaimDue(picked, now, limit, lease);
      var outcomes := DispatchAll(rows, claimed, picked, gateway, nows, schedule);
      SummaryAddsUp(outcomes);
      NoneCountsZero(outcomes, WasDiscarded);
      summary := Tally(outcomes);
    }
  }
}
