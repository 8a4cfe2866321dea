/**
 * The outgoing message of the outbox: sending state, bounded retries and delivery tracking.
 *
 * `Message` is the value of one row. The functions say what each transition does to a value;
 * the class `OutboxMessage` performs the same transitions on its fields, in place.
 * Instants are integer seconds.
 */
module OutboxMessages {
  import opened Common

  datatype OutboxStatus = Pending | Sent | Failed

  /** What WhatsApp reported about a message the gateway accepted. */
  datatype DeliveryStatus = DeliveryFailed | Delivered | Read

  datatype OutboxError = InvalidOutboxState | Invalid

  const UNKNOWN_ERROR := "Error desconocido"
  const ERROR_MAX_LENGTH := 500
  const EXTERNAL_ID_MAX_LENGTH := 64
  const DEFAULT_MAX_ATTEMPTS := 6

  datatype Message = Message(
    payload: Option<string>,
    redactAfterSend: bool,
    status: OutboxStatus,
    attempts: nat,
    maxAttempts: int,
    nextAttemptAt: int,
    lastError: Option<string>,
    sentAt: Option<int>,
    externalId: Option<string>,
    conversationId: Option<int>,
    deliveryStatus: Option<DeliveryStatus>,
    deliveryError: Option<string>,
    deliveredAt: Option<int>,
    readAt: Option<int>,
    retriedExternalId: Option<string>)

  // ---------------------------------------------------------------- text helpers

  /** The characters that Python's `str.strip` removes. */
  predicate IsWhitespace(c: char) {
    var n := c as int;
    || 9 <= n <= 13 || 28 <= n <= 32 || n == 133 || n == 160 || n == 5760
    || 8192 <= n <= 8202 || n == 8232 || n == 8233 || n == 8239 || n == 8287 || n == 12288
  }

  predicate IsBlank(s: string) {
    forall i :: 0 <= i < |s| ==> IsWhitespace(s[i])
  }

  function Strip(s: string): string {
    if s == [] then s
    else if IsWhitespace(s[0]) then Strip(s[1..])
    else if IsWhitespace(s[|s| - 1]) then Strip(s[..|s| - 1])
    else s
  }

  function Clip(error: string): (r: string)
    ensures 0 < |r| <= ERROR_MAX_LENGTH
  {
    var stripped := Strip(error);
    var clipped := if |stripped| > ERROR_MAX_LENGTH then stripped[..ERROR_MAX_LENGTH] else stripped;
    if clipped == [] then UNKNOWN_ERROR else clipped
  }

  predicate ValidExternalId(id: string) {
    !IsBlank(id) && |id| <= EXTERNAL_ID_MAX_LENGTH
  }

  // ---------------------------------------------------------------- retry schedule

  predicate ValidSchedule(delays: seq<int>) {
    delays != [] && forall i :: 0 <= i < |delays| ==> delays[i] > 0
  }

  function DelayAfter(delays: seq<int>, failedAttempts: int): int
    requires ValidSchedule(delays) && failedAttempts >= 1
  {
    delays[Min(failedAttempts, |delays|) - 1]
  }

  function LongestDelay(delays: seq<int>): (r: int)
    requires ValidSchedule(delays)
    ensures forall i :: 0 <= i < |delays| ==> delays[i] <= r
    ensures r in delays
  {
    if |delays| == 1 then delays[0] else Max(delays[0], LongestDelay(delays[1..]))
  }

  // ---------------------------------------------------------------- transitions on values

  function Create(payload: string, redactAfterSend: bool, maxAttempts: int, now: int): Result<Message, OutboxError> {
    if maxAttempts < 1 then Failure(Invalid)
    else Success(Message(Some(payload), redactAfterSend, Pending, 0, maxAttempts, now,
                         None, None, None, None, None, None, None, None, None))
  }

  function MarkSent(m: Message, externalId: string, conversationId: int, now: int): Result<Message, OutboxError> {
    if m.status != Pending then Failure(InvalidOutboxState)
    else if !ValidExternalId(externalId) then Failure(Invalid)
    else Success(m.(status := Sent, sentAt := Some(now), externalId := Some(externalId),
                    conversationId := Some(conversationId),
                    payload := if m.redactAfterSend then None else m.payload))
  }

  function RegisterFailure(m: Message, error: string, permanent: bool, now: int,
                           schedule: seq<int>): Result<Message, OutboxError>
    requires ValidSchedule(schedule)
  {
    if m.status != Pending then Failure(InvalidOutboxState)
    else
      var tried := m.(attempts := m.attempts + 1, lastError := Some(Clip(error)));
      if permanent || tried.attempts >= m.maxAttempts then Success(tried.(status := Failed))
      else Success(tried.(nextAttemptAt := now + DelayAfter(schedule, tried.attempts)))
  }

  function RecordDelivery(m: Message, status: DeliveryStatus, error: Option<string>,
                          at: int): Result<(Message, bool), OutboxError> {
    if m.status != Sent then Failure(InvalidOutboxState)
    else
      var settled := m.deliveryStatus == Some(Delivered) || m.deliveryStatus == Some(Read);
      match status
      case DeliveryFailed =>
        if settled then Success((m, false))
        else Success((m.(deliveryStatus := Some(DeliveryFailed),
                         deliveryError := if error.Some? then Some(Clip(error.value)) else None), true))
      case Delivered =>
        if settled then Success((m, false))
        else Success((m.(deliveryStatus := Some(Delivered), deliveryError := None, deliveredAt := Some(at)), true))
      case Read =>
        if m.deliveryStatus == Some(Read) then Success((m, false))
        else Success((m.(deliveryStatus := Some(Read), deliveryError := None,
                         deliveredAt := if m.deliveredAt.Some? then m.deliveredAt else Some(at),
                         readAt := Some(at)), true))
  }

  predicate HasFailed(m: Message) {
    m.status == Failed || m.deliveryStatus == Some(DeliveryFailed)
  }

  predicate IsRetryable(m: Message) {
    HasFailed(m) && m.payload.Some?
  }

  function Retry(m: Message, now: int): Result<Message, OutboxError> {
    if !HasFailed(m) || m.payload.None? then Failure(InvalidOutboxState)
    else Success(m.(retriedExternalId := if m.externalId.Some? then m.externalId else m.retriedExternalId,
                    status := Pending, attempts := 0, nextAttemptAt := now, lastError := None,
                    sentAt := None, externalId := None, conversationId := None,
                    deliveryStatus := None, deliveryError := None, deliveredAt := None, readAt := None))
  }

  /** What a rotated or voided signature link does to its queued messages. */
  function Invalidate(m: Message): Message {
    if m.status == Pending
    then m.(status := Failed, payload := None, lastError := Some("Enlace reemplazado o anulado"))
    else m
  }

  // ---------------------------------------------------------------- the row invariant

  /** The order `none < FAILED < DELIVERED < READ` of delivery knowledge. */
  function Rank(d: Option<DeliveryStatus>): nat {
    match d
    case None => 0
    case Some(DeliveryFailed) => 1
    case Some(Delivered) => 2
    case Some(Read) => 3
  }

  ghost predicate WellFormed(m: Message) {
    && 1 <= m.maxAttempts && m.attempts <= m.maxAttempts && (m.status != Failed ==> m.attempts < m.maxAttempts)
    && (m.status == Pending ==> m.payload.Some?)
    && (m.status == Sent <==> m.externalId.Some?)
    && (m.status == Sent <==> m.sentAt.Some?)
    && (m.status == Sent <==> m.conversationId.Some?)
    && (m.status == Sent ==> (m.payload.None? <==> m.redactAfterSend))
    && (m.status != Sent ==> m.deliveryStatus.None?)
    && (m.deliveredAt.Some? <==> Rank(m.deliveryStatus) >= 2)
    && (m.readAt.Some? <==> Rank(m.deliveryStatus) == 3)
  }

  /** Every transition of a row that succeeds keeps it well formed. */
  lemma TransitionsKeepWellFormed(m: Message, m': Message, text: string, n: int, now: int, flag: bool,
                                  schedule: seq<int>, d: DeliveryStatus, e: Option<string>)
    requires WellFormed(m) && ValidSchedule(schedule)
    requires || MarkSent(m, text, n, now) == Success(m')
             || RegisterFailure(m, text, flag, now, schedule) == Success(m')
             || (RecordDelivery(m, d, e, now).Success? && RecordDelivery(m, d, e, now).value.0 == m')
             || Retry(m, now) == Success(m')
             || Invalidate(m) == m'
    ensures WellFormed(m')
  {
    if RecordDelivery(m, d, e, now).Success? && RecordDelivery(m, d, e, now).value.0 == m' {
      match d
      case DeliveryFailed =>
      case Delivered =>
      case Read =>
    }
  }

  /** A message is created with at least one attempt, and marked as sent exactly while it is pending, with an id of at
      most 64 characters that are not all blank; nothing else but its content and the receipt changes then. */
  lemma MarksExactlyWhen(m: Message, id: string, conversation: int, now: int, text: string, redact: bool, attempts: int)
    ensures Create(text, redact, attempts, now).Success? <==> attempts >= 1
    ensures MarkSent(m, id, conversation, now).Success? <==>
              m.status == Pending && |id| <= 64 && exists i :: 0 <= i < |id| && !IsWhitespace(id[i])
    ensures MarkSent(m, id, conversation, now).Success? ==>
              MarkSent(m, id, conversation, now).value.(payload := m.payload) ==
              m.(status := Sent, sentAt := Some(now), externalId := Some(id), conversationId := Some(conversation))
    ensures MarkSent(m, id, conversation, now).Failure? ==>
              MarkSent(m, id, conversation, now).error == if m.status == Pending then Invalid else InvalidOutboxState
  {
  }

  /** Stripping takes exactly the whitespace at both ends. */
  lemma {:induction false} StripTakesTheEnds(s: string) returns (i: nat, j: nat)
    ensures i <= j <= |s| && Strip(s) == s[i..j]
    ensures forall k :: 0 <= k < i || j <= k < |s| ==> IsWhitespace(s[k])
    ensures i < j ==> !IsWhitespace(s[i]) && !IsWhitespace(s[j - 1])
  {
    if s == [] {
      i, j := 0, 0;
    } else if IsWhitespace(s[0]) {
      i, j := StripTakesTheEnds(s[1..]);
      i, j := i + 1, j + 1;
      assert forall k :: 0 < k < |s| ==> s[k] == s[1..][k - 1];
    } else if IsWhitespace(s[|s| - 1]) {
      i, j := StripTakesTheEnds(s[..|s| - 1]);
    } else {
      i, j := 0, |s|;
    }
  }

  /** An error is kept from its first character that is not blank, up to 500; an empty one is named unknown. */
  lemma ErrorsAreClipped(error: string)
    ensures IsBlank(Strip(error)) <==> Strip(error) == ""
    ensures Clip(error) == if Strip(error) == "" then UNKNOWN_ERROR else Strip(error)[..Min(|Strip(error)|, 500)]
  {
    var i, j := StripTakesTheEnds(error);
    assert Strip(error) != "" ==> Strip(error)[0] == error[i];
  }

  /** What is shown as retryable is what a retry accepts, and retrying it queues the same content afresh. */
  lemma OfferedRetriesSucceed(m: Message, now: int)
    requires WellFormed(m)
    ensures IsRetryable(m) <==> Retry(m, now).Success?
    ensures IsRetryable(m) <==> m.payload.Some? && (m.status == Failed || m.deliveryStatus == Some(DeliveryFailed))
    ensures IsRetryable(m) ==>
              var again := Retry(m, now).value;
              && Create(m.payload.value, m.redactAfterSend, m.maxAttempts, now) ==
                 Success(again.(retriedExternalId := None))
              && again.retriedExternalId == (if m.status == Sent then m.externalId else m.retriedExternalId)
              && !IsRetryable(again)
  {
  }

  // ---------------------------------------------------------------- delivery notices form a join

  /** The later of two pieces of delivery knowledge in `none < FAILED < DELIVERED < READ`. */
  function Join(a: Option<DeliveryStatus>, b: Option<DeliveryStatus>): Option<DeliveryStatus> {
    if Rank(a) >= Rank(b) then a else b
  }

  function JoinAll(notices: seq<DeliveryStatus>): Option<DeliveryStatus> {
    if notices == [] then None
    else Join(JoinAll(notices[..|notices| - 1]), Some(notices[|notices| - 1]))
  }

  /** One notice raises the delivery status to the join, and is ignored exactly when the row already
      knows as much, a repeated failure excepted. */
  lemma NoticeRaisesToTheJoin(m: Message, d: DeliveryStatus, e: Option<string>, at: int)
    requires m.status == Sent
    ensures RecordDelivery(m, d, e, at).Success?
    ensures var (m', applied) := RecordDelivery(m, d, e, at).value;
            && m'.deliveryStatus == Join(m.deliveryStatus, Some(d))
            && (applied <==> Rank(Some(d)) > Rank(m.deliveryStatus)
                             || (d == DeliveryFailed && m.deliveryStatus == Some(DeliveryFailed)))
            && (!applied ==> m' == m)
            && (applied ==> m' == m.(
                  deliveryStatus := Some(d),
                  deliveryError := if d == DeliveryFailed && e.Some? then Some(Clip(e.value)) else None,
                  deliveredAt := if d == DeliveryFailed || (d == Read && m.deliveredAt.Some?) then m.deliveredAt
                                 else Some(at),
                  readAt := if d == Read then Some(at) else m.readAt))
  {
    match d
    case DeliveryFailed =>
    case Delivered =>
    case Read =>
  }

  /** The join of a history is the greatest notice in it, so order and repetition do not matter. */
  lemma {:induction false} JoinAllIsTheGreatest(notices: seq<DeliveryStatus>)
    ensures forall i :: 0 <= i < |notices| ==> Rank(Some(notices[i])) <= Rank(JoinAll(notices))
    ensures notices == [] ==> JoinAll(notices) == None
    ensures notices != [] ==> JoinAll(notices).Some? && JoinAll(notices).value in notices
  {
    if notices != [] {
      JoinAllIsTheGreatest(notices[..|notices| - 1]);
    }
  }

  lemma JoinAllDependsOnTheSetOnly(a: seq<DeliveryStatus>, b: seq<DeliveryStatus>)
    requires forall d :: d in a <==> d in b
    ensures JoinAll(a) == JoinAll(b)
  {
    JoinAllIsTheGreatest(a);
    JoinAllIsTheGreatest(b);
    if a != [] {
      assert a[0] in b;
      assert JoinAll(a).value in b && JoinAll(b).value in a;
    }
  }

  // ---------------------------------------------------------------- the mutable aggregate

  class OutboxMessage {
    var payload: Option<string>
    const redactAfterSend: bool
    var status: OutboxStatus
    var attempts: nat
    const maxAttempts: int
    var nextAttemptAt: int
    var lastError: Option<string>
    var sentAt: Option<int>
    var externalId: Option<string>
    var conversationId: Option<int>
    var deliveryStatus: Option<DeliveryStatus>
    var deliveryError: Option<string>
    var deliveredAt: Option<int>
    var readAt: Option<int>
    var retriedExternalId: Option<string>

    function Value(): Message
      reads this
    {
      Message(payload, redactAfterSend, status, attempts, maxAttempts, nextAttemptAt, lastError, sentAt,
              externalId, conversationId, deliveryStatus, deliveryError, deliveredAt, readAt, retriedExternalId)
    }

    /** Rehydrates a row. */
    constructor (m: Message)
      ensures Value() == m
    {
      payload, redactAfterSend, status := m.payload, m.redactAfterSend, m.status;
      attempts, maxAttempts, nextAttemptAt := m.attempts, m.maxAttempts, m.nextAttemptAt;
      lastError, sentAt, externalId := m.lastError, m.sentAt, m.externalId;
      conversationId, deliveryStatus, deliveryError := m.conversationId, m.deliveryStatus, m.deliveryError;
      deliveredAt, readAt, retriedExternalId := m.deliveredAt, m.readAt, m.retriedExternalId;
    }

    method RunMarkSent(id: string, conversation: int, now: int) returns (error: Option<OutboxError>)
      modifies this
      ensures match MarkSent(old(Value()), id, conversation, now)
              case Success(m) => error == None && Value() == m
              case Failure(e) => error == Some(e) && Value() == old(Value())
    {
      if status != Pending { return Some(InvalidOutboxState); }
      if !ValidExternalId(id) { return Some(Invalid); }
      status := Sent;
      sentAt := Some(now);
      externalId := Some(id);
      conversationId := Some(conversation);
      if redactAfterSend {
        payload := None;
      }
      error := None;
    }

    method RunRegisterFailure(text: string, permanent: bool, now: int, schedule: seq<int>)
      returns (error: Option<OutboxError>)
      requires ValidSchedule(schedule)
      modifies this
      ensures match RegisterFailure(old(Value()), text, permanent, now, schedule)
              case Success(m) => error == None && Value() == m
              case Failure(e) => error == Some(e) && Value() == old(Value())
    {
      if status != Pending { return Some(InvalidOutboxState); }
      attempts := attempts + 1;
      lastError := Some(Clip(text));
      if permanent || attempts >= maxAttempts {
        status := Failed;
        return None;
      }
      nextAttemptAt := now + DelayAfter(schedule, attempts);
      error := None;
    }

    method RunRecordDelivery(report: DeliveryStatus, failure: Option<string>, at: int)
      returns (applied: Result<bool, OutboxError>)
      modifies this
      ensures match RecordDelivery(old(Value()), report, failure, at)
              case Success((m, changed)) => applied == Success(changed) && Value() == m
              case Failure(e) => applied == Failure(e) && Value() == old(Value())
    {
      if status != Sent { return Failure(InvalidOutboxState); }
      var settled := deliveryStatus == Some(Delivered) || deliveryStatus == Some(Read);
      if report == DeliveryFailed {
        if settled { return Success(false); }
        deliveryStatus := Some(DeliveryFailed);
        deliveryError := if failure.Some? then Some(Clip(failure.value)) else None;
        return Success(true);
      }
      if report == Delivered {
        if settled { return Success(false); }
        deliveryStatus := Some(Delivered);
        deliveryError := None;
        deliveredAt := Some(at);
        return Success(true);
      }
      if deliveryStatus == Some(Read) { return Success(false); }
      deliveryStatus := Some(Read);
      deliveryError := None;
      deliveredAt := if deliveredAt.Some? then deliveredAt else Some(at);
      readAt := Some(at);
      applied := Success(true);
    }

    method RunRetry(now: int) returns (error: Option<OutboxError>)
      modifies this
      ensures match Retry(old(Value()), now)
              case Success(m) => error == None && Value() == m
              case Failure(e) => error == Some(e) && Value() == old(Value())
    {
      if status != Failed && deliveryStatus != Some(DeliveryFailed) { return Some(InvalidOutboxState); }
      if payload.None? { return Some(InvalidOutboxState); }
      retriedExternalId := if externalId.Some? then externalId else retriedExternalId;
      status, attempts, nextAttemptAt, lastError := Pending, 0, now, None;
      ForgetSend();
      error := None;
    }

    method ForgetSend()
      modifies this
      ensures Value() == old(Value()).(sentAt := None, externalId := None, conversationId := None,
                                       deliveryStatus := None, deliveryError := None,
                                       deliveredAt := None, readAt := None)
    {
      sentAt, externalId, conversationId := None, None, None;
      deliveryStatus, deliveryError, deliveredAt, readAt := None, None, None, None;
    }
  }
}
