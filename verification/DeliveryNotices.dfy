/**
 * A delivery notice from the gateway: find the row that holds its external id, complete its status from the
 * gateway when the notice does not bring one, and record it on that row.
 */
module DeliveryNotices {
  import opened Common
  import opened OutboxMessages
  import opened OutboxDispatch

  datatype Notice = Notice(
    externalId: string, status: Option<DeliveryStatus>, error: Option<string>, statusInPayload: bool,
    conversation: Option<int>)

  datatype Report = Report(status: Option<DeliveryStatus>, error: Option<string>)

  datatype NoticeOutcome = WasApplied | WasIgnored | UnknownMessage | Unresolved

  predicate Holds(rows: map<RowId, Message>, id: RowId, externalId: string) {
    id in rows && rows[id].externalId == Some(externalId)
  }

  /** At most one row holds an external id, and only a sent one: what every run of the outbox keeps. */
  ghost predicate IdsIdentify(rows: map<RowId, Message>) {
    && (forall a, b, externalId :: Holds(rows, a, externalId) && Holds(rows, b, externalId) ==> a == b)
    && (forall id, externalId :: Holds(rows, id, externalId) ==> rows[id].status == Sent)
  }

  /** The status the notice stands for, asking the gateway only when the notice could not carry one. */
  function Resolve(n: Notice, report: Option<Report>): (Option<DeliveryStatus>, Option<string>) {
    if n.status.None? && !n.statusInPayload && n.conversation.Some? && report.Some?
    then (report.value.status, if n.error.Some? && n.error.value != "" then n.error else report.value.error)
    else (n.status, n.error)
  }

  /** An error is kept only with a failure. */
  function ErrorFor(d: DeliveryStatus, error: Option<string>): Option<string> {
    if d == DeliveryFailed then error else None
  }

  /** What is recorded for a notice on a message that was sent: its own status and error, completed by the gateway's
      report only when the notice could not carry a status, its own error first; and an error only with a failure. */
  lemma NoticesAreCompleted(m: Message, n: Notice, report: Option<Report>, at: int)
    requires m.status == OutboxStatus.Sent
    ensures Resolve(n, report).0.Some? <==>
              || n.status.Some?
              || (!n.statusInPayload && n.conversation.Some? && report.Some? && report.value.status.Some?)
    ensures Resolve(n, report).0.Some? ==>
            var asked := n.status.None? && !n.statusInPayload && n.conversation.Some? && report.Some?;
            var d := Resolve(n, report).0.value;
            var (m', applied) := RecordDelivery(m, d, ErrorFor(d, Resolve(n, report).1), at).value;
            var failure := if !asked || (n.error.Some? && n.error.value != "") then n.error else report.value.error;
            && Some(d) == (if asked then report.value.status else n.status)
            && (applied ==>
                  m'.deliveryError == if d == DeliveryFailed && failure.Some? then Some(Clip(failure.value)) else None)
  {
    var (status, error) := Resolve(n, report);
    if status.Some? {
      NoticeRaisesToTheJoin(m, status.value, ErrorFor(status.value, error), at);
    }
  }

  class NoticeDesk {
    var rows: map<RowId, Message>

    constructor (rows: map<RowId, Message>)
      ensures this.rows == rows
    {
      this.rows := rows;
    }

    /** Applies the notice to the row that holds the id now; an unknown id changes nothing. */
    method Record(externalId: string, d: DeliveryStatus, error: Option<string>, at: int) returns (applied: bool)
      requires IdsIdentify(rows)
      modifies this
      ensures (forall id :: !Holds(old(rows), id, externalId)) ==> !applied && rows == old(rows)
      ensures forall id :: Holds(old(rows), id, externalId) ==>
                var (m, did) := RecordDelivery(old(rows)[id], d, error, at).value;
                applied == did && rows == old(rows)[id := m]
    {
      if !exists id :: id in rows && rows[id].externalId == Some(externalId) { return false; }
      var id :| id in rows && rows[id].externalId == Some(externalId);
      assert Holds(rows, id, externalId);
      var message := new OutboxMessage(rows[id]);
      var outcome := message.RunRecordDelivery(d, error, at);
      applied := outcome.value;
      assert rows[id := rows[id]] == rows;
      if applied {
        rows := rows[id := message.Value()];
      }
    }

    /** A notice reaches exactly the row that holds its id, raises it to the join and touches no other; one for
        an unknown id, or whose status nobody knows, changes nothing. */
    method Process(n: Notice, report: Option<Report>, at: int) returns (outcome: NoticeOutcome)
      requires IdsIdentify(rows)
      modifies this
      ensures outcome == UnknownMessage <==> forall id :: !Holds(old(rows), id, n.externalId)
      ensures outcome in {UnknownMessage, Unresolved} ==> rows == old(rows)
      ensures outcome == Unresolved <==>
                && (exists id :: Holds(old(rows), id, n.externalId)) && n.status.None?
                && (n.statusInPayload || n.conversation.None? || report.None? || report.value.status.None?)
      ensures rows.Keys == old(rows).Keys
      ensures forall id :: id in old(rows) && !Holds(old(rows), id, n.externalId) ==> rows[id] == old(rows)[id]
      ensures forall id :: Holds(old(rows), id, n.externalId) && Resolve(n, report).0.Some? ==>
                var d := Resolve(n, report).0.value;
                var (m, did) := RecordDelivery(old(rows)[id], d, ErrorFor(d, Resolve(n, report).1), at).value;
                && rows[id] == m && m.deliveryStatus == Join(old(rows)[id].deliveryStatus, Some(d))
                && outcome == (if did then WasApplied else WasIgnored)
    {
      if !exists id :: id in rows && rows[id].externalId == Some(n.externalId) {
        assert forall id :: !Holds(rows, id, n.externalId);
        return UnknownMessage;
      }
      ghost var id :| id in rows && rows[id].externalId == Some(n.externalId);
      assert Holds(rows, id, n.externalId);
      var status, error := n.status, n.error;
      if status.None? && !n.statusInPayload && n.conversation.Some? {
        if report.Some? {
          status := report.value.status;
          error := if n.error.Some? && n.error.value != "" then n.error else report.value.error;
        }
      }
      if status.None? { return Unresolved; }
      var failure := if status.value == DeliveryFailed then error else None;
      NoticeRaisesToTheJoin(rows[id], status.value, failure, at);
      var applied := Record(n.externalId, status.value, failure, at);
      outcome := if applied then WasApplied else WasIgnored;
    }
  }
}
