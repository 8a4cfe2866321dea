/**
 * When a message that failed is tried again, over whole runs: the waits of the schedule in their order, counted since
 * the row was queued or requeued, and what becomes of its content.
 */
module OutboxRetries {
  import opened Common
  import opened OutboxMessages
  import opened OutboxDispatch
  import opened OutboxDelivery
  import opened OutboxGuarantees

  /** The step queues the row, for the first time or again. */
  predicate Queues(s: Step, id: RowId) {
    s == Requeue(id) || (s.Enqueue? && s.id == id)
  }

  /** The wait after the `n`th failure: the schedule in order, its last wait from then on. */
  function WaitAfter(schedule: seq<int>, n: nat): int
    requires schedule != [] && n >= 1
  {
    if n <= |schedule| then schedule[n - 1] else schedule[|schedule| - 1]
  }

  /** A row queued, or queued again, is due at once with all its attempts and its content. */
  lemma QueuedRowsAreFresh(cfg: Config, w: World, s: Step, id: RowId)
    requires cfg.Valid() && Enabled(cfg, w, s) && Queues(s, id)
    ensures id in Apply(cfg, w, s).rows
    ensures var m := Apply(cfg, w, s).rows[id].message;
            && m.status == Pending && m.attempts == 0 && m.nextAttemptAt == w.now
            && (s.Enqueue? ==> m.payload == Some(s.payload) && m.redactAfterSend == s.redact
                               && m.maxAttempts == s.maxAttempts && m.retriedExternalId == None)
            && (s.Requeue? ==> m.payload == w.rows[id].message.payload
                               && m.redactAfterSend == w.rows[id].message.redactAfterSend
                               && m.maxAttempts == w.rows[id].message.maxAttempts)
  {
  }

  /** What saving a rejection does to a pending row that spent `spent` attempts. */
  lemma RejectionsAreSaved(m: Message, error: string, permanent: bool, now: int, schedule: seq<int>)
    requires ValidSchedule(schedule) && m.status == Pending
    ensures var m' := SaveReply(m, Rejected(error, permanent), now, schedule).0;
      && m'.attempts == m.attempts + 1 && m'.payload == m.payload && m'.lastError == Some(Clip(error))
      && m'.status == (if permanent || m.attempts + 1 >= m.maxAttempts then Failed else Pending)
      && (m'.status == Pending ==> m'.nextAttemptAt == now + WaitAfter(schedule, m.attempts + 1))
  {
  }

  /** In every run the `n`th failure of a row since it was queued fails it for good exactly when it is permanent or
      the attempts are used up; otherwise the row waits exactly the `n`th delay of the schedule, or the last one when
      there are no more. Its content stays, and the error is kept. */
  lemma RetriesFollowTheSchedule(cfg: Config, ws: seq<World>, steps: seq<Step>, id: RowId, b: nat, i: nat)
    requires Run(cfg, ws, steps) && b < i < |steps| && Queues(steps[b], id)
    requires NoRequeue(steps, id, b + 1, i) && SavesFailure(ws[i], steps[i], id)
    ensures id in ws[i + 1].rows
    ensures var n := FailureSaves(ws, steps, id, b + 1, i) + 1;
            var reply := ws[i].workers[steps[i].worker].reply.value;
            var before, after := ws[i].rows[id].message, ws[i + 1].rows[id].message;
            && after.attempts == n && after.payload == before.payload && after.lastError == Some(Clip(reply.error))
            && after.status == (if reply.permanent || n >= after.maxAttempts then Failed else Pending)
            && (after.status == Pending ==> after.nextAttemptAt == ws[i].now + WaitAfter(cfg.schedule, n))
  {
    QueuedRowsAreFresh(cfg, ws[b], steps[b], id);
    RunSpends(cfg, ws, steps, id, b + 1, i);
    var m, reply := ws[i].rows[id].message, ws[i].workers[steps[i].worker].reply.value;
    RejectionsAreSaved(m, reply.error, reply.permanent, ws[i].now, cfg.schedule);
    assert ws[i + 1].rows[id].message == SaveReply(m, reply, ws[i].now, cfg.schedule).0;
  }

  // ---------------------------------------------------------------- content

  /** The content is the one before or gone, and whether it goes once sent is settled from the start. */
  ghost predicate ContentKept(before: Message, after: Message) {
    && (after.payload == before.payload || after.payload == None)
    && after.redactAfterSend == before.redactAfterSend && after.maxAttempts == before.maxAttempts
  }

  lemma SavingKeepsContent(m: Message, reply: Reply, now: int, schedule: seq<int>)
    requires ValidSchedule(schedule)
    ensures ContentKept(m, SaveReply(m, reply, now, schedule).0)
  {
  }

  lemma NoticesKeepContent(row: Row, status: DeliveryStatus, error: Option<string>, at: int)
    ensures ContentKept(row.message, NoticeRow(row, status, error, at).message)
  {
    match status
    case DeliveryFailed =>
    case Delivered =>
    case Read =>
  }

  lemma ClaimKeepsContent(cfg: Config, w: World, k: WorkerId, picked: seq<RowId>, id: RowId)
    requires cfg.Valid() && Enabled(cfg, w, Claim(k, picked)) && id in w.rows
    ensures id in ApplyClaim(cfg, w, k, picked).rows
    ensures ContentKept(w.rows[id].message, ApplyClaim(cfg, w, k, picked).rows[id].message)
  {
  }

  lemma QuietStepKeepsContent(cfg: Config, w: World, s: Step, id: RowId)
    requires cfg.Valid() && Enabled(cfg, w, s) && id in w.rows && !s.Save? && !s.Notice? && !s.Claim?
    ensures id in Apply(cfg, w, s).rows && ContentKept(w.rows[id].message, Apply(cfg, w, s).rows[id].message)
  {
  }

  lemma SaveKeepsContent(cfg: Config, w: World, k: WorkerId, id: RowId)
    requires cfg.Valid() && Enabled(cfg, w, Save(k)) && id in w.rows
    ensures id in Apply(cfg, w, Save(k)).rows
    ensures ContentKept(w.rows[id].message, Apply(cfg, w, Save(k)).rows[id].message)
  {
    SavingKeepsContent(w.rows[id].message, w.workers[k].reply.value, w.now, cfg.schedule);
  }

  lemma NoticeStepKeepsContent(cfg: Config, w: World, s: Step, id: RowId)
    requires cfg.Valid() && s.Notice? && id in w.rows
    ensures id in Apply(cfg, w, s).rows && ContentKept(w.rows[id].message, Apply(cfg, w, s).rows[id].message)
  {
    NoticesKeepContent(w.rows[id], s.status, s.error, w.now);
  }

  lemma StepKeepsContent(cfg: Config, w: World, s: Step, id: RowId)
    requires cfg.Valid() && Enabled(cfg, w, s) && Inv(cfg, w) && id in w.rows
    ensures id in Apply(cfg, w, s).rows && ContentKept(w.rows[id].message, Apply(cfg, w, s).rows[id].message)
  {
    match s
    case Save(k) => SaveKeepsContent(cfg, w, k, id);
    case Notice(_, _, _) => NoticeStepKeepsContent(cfg, w, s, id);
    case Claim(k, picked) => ClaimKeepsContent(cfg, w, k, picked, id);
    case _ => QuietStepKeepsContent(cfg, w, s, id);
  }

  lemma RunStepKeepsContent(cfg: Config, ws: seq<World>, steps: seq<Step>, id: RowId, j: nat)
    requires Run(cfg, ws, steps) && j < |steps| && id in ws[j].rows
    ensures id in ws[j + 1].rows && ContentKept(ws[j].rows[id].message, ws[j + 1].rows[id].message)
  {
    EveryRunKeepsInv(cfg, ws, steps, j);
    StepKeepsContent(cfg, ws[j], steps[j], id);
  }

  /** In every run the content of a row is the one it was queued with, until it goes for good. */
  lemma {:induction false} ContentIsNeverRewritten(cfg: Config, ws: seq<World>, steps: seq<Step>, id: RowId,
                                                   i: nat, j: nat)
    requires Run(cfg, ws, steps) && i <= j < |ws| && id in ws[i].rows
    ensures id in ws[j].rows && ContentKept(ws[i].rows[id].message, ws[j].rows[id].message)
    decreases j
  {
    if i < j {
      ContentIsNeverRewritten(cfg, ws, steps, id, i, j - 1);
      RunStepKeepsContent(cfg, ws, steps, id, j - 1);
    }
  }

  /** A pending row has its content; a sent row has it exactly unless it was to be redacted. */
  lemma SentRowsAreRedactedAsAsked(cfg: Config, ws: seq<World>, steps: seq<Step>, id: RowId, i: nat)
    requires Run(cfg, ws, steps) && i < |ws| && id in ws[i].rows
    ensures ws[i].rows[id].message.status == Pending ==> ws[i].rows[id].message.payload.Some?
    ensures ws[i].rows[id].message.status == Sent ==>
              (ws[i].rows[id].message.payload.None? <==> ws[i].rows[id].message.redactAfterSend)
  {
    EveryRunKeepsInv(cfg, ws, steps, i);
    assert RowOk(cfg, ws[i].now, ws[i].rows[id]);
  }

  // ---------------------------------------------------------------- links that were rotated or voided

  predicate GoneForGood(m: Message) {
    m.status == Failed && m.payload == None
  }

  lemma NoticeKeepsGone(cfg: Config, w: World, s: Step, id: RowId)
    requires cfg.Valid() && s.Notice? && Inv(cfg, w) && id in w.rows && GoneForGood(w.rows[id].message)
    ensures id in Apply(cfg, w, s).rows && Apply(cfg, w, s).rows[id] == w.rows[id]
  {
    assert RowOk(cfg, w.now, w.rows[id]) && w.rows[id].message.externalId == None;
    assert FindByExternalId(w, s.externalId) != Some(id);
  }

  lemma SaveKeepsGone(cfg: Config, w: World, k: WorkerId, id: RowId)
    requires cfg.Valid() && Enabled(cfg, w, Save(k)) && id in w.rows && GoneForGood(w.rows[id].message)
    ensures id in Apply(cfg, w, Save(k)).rows && Apply(cfg, w, Save(k)).rows[id].message == w.rows[id].message
  {
  }

  lemma StepKeepsGone(cfg: Config, w: World, s: Step, id: RowId)
    requires cfg.Valid() && Enabled(cfg, w, s) && Inv(cfg, w) && id in w.rows && GoneForGood(w.rows[id].message)
    ensures id in Apply(cfg, w, s).rows && GoneForGood(Apply(cfg, w, s).rows[id].message)
  {
    match s
    case Notice(_, _, _) => NoticeKeepsGone(cfg, w, s, id);
    case Save(k) => SaveKeepsGone(cfg, w, k, id);
    case Claim(_, picked) =>
      assert id in picked ==> Due(Messages(w), id, w.now);
    case _ =>
  }

  /** A message queued for a link that is then rotated or voided fails at once without its content, and no later step of
      any run sends it or queues it again. */
  lemma {:induction false} InvalidatedMessagesAreGone(cfg: Config, ws: seq<World>, steps: seq<Step>, id: RowId,
                                                      i: nat, j: nat)
    requires Run(cfg, ws, steps) && i < j < |ws| && steps[i].InvalidateLinks? && id in steps[i].ids
    requires id in ws[i].rows && ws[i].rows[id].message.status == Pending
    ensures id in ws[j].rows && ws[j].rows[id].message.status == Failed && ws[j].rows[id].message.payload == None
    ensures ws[i + 1].rows[id].message.lastError == Some("Enlace reemplazado o anulado")
    decreases j
  {
    if j > i + 1 {
      InvalidatedMessagesAreGone(cfg, ws, steps, id, i, j - 1);
      EveryRunKeepsInv(cfg, ws, steps, j - 1);
      StepKeepsGone(cfg, ws[j - 1], steps[j - 1], id);
    }
  }

  /** And it touches nothing else: a message resolved before, or of another link, stays as it was. */
  lemma OnlyPendingMessagesOfTheLinkGo(cfg: Config, w: World, ids: set<RowId>, id: RowId)
    requires cfg.Valid() && id in w.rows && (id !in ids || w.rows[id].message.status != Pending)
    ensures Apply(cfg, w, InvalidateLinks(ids)).rows[id] == w.rows[id]
  {
  }
}
