/**
 * What the outbox guarantees over whole runs: at most one send per queueing generation when results are
 * saved in time, nothing stranded or invented in any run, bounded failures, and delivery knowledge that
 * does not depend on the order of the notices.
 */
module OutboxGuarantees {
  import opened Common
  import opened OutboxMessages
  import opened OutboxDispatch
  import opened OutboxDelivery

  // ---------------------------------------------------------------- nothing stranded, nothing invented

  /** In every run, crashes and stale saves included: a pending row has attempts left and is due again
      within the lease or the longest delay; a row is sent exactly when it holds an external id, which
      the gateway returned for that row and for no other. */
  lemma NothingStrandedNothingInvented(cfg: Config, ws: seq<World>, steps: seq<Step>, i: nat, id: RowId)
    requires Run(cfg, ws, steps) && i < |ws| && id in ws[i].rows
    ensures var row := ws[i].rows[id];
            && (row.message.status == Pending ==>
                  && row.message.attempts < row.message.maxAttempts
                  && row.message.nextAttemptAt <= ws[i].now + cfg.Horizon())
            && (row.message.status == Sent <==> row.message.externalId.Some?)
            && (row.message.externalId.Some? ==>
                  && row.message.externalId.value in row.returned
                  && forall other :: other in ws[i].rows && other != id ==>
                       row.message.externalId.value !in ws[i].rows[other].returned)
  {
    EveryRunKeepsInv(cfg, ws, steps, i);
  }

  /** The guard for a row that vanished never fires, and a notice that finds a row always finds it sent. */
  lemma DefensiveBranchesNeverRun(cfg: Config, ws: seq<World>, steps: seq<Step>, i: nat)
    requires Run(cfg, ws, steps) && i < |ws|
    ensures forall k :: Dispatching(ws[i], k) ==> ws[i].workers[k].batch[0].row in ws[i].rows
    ensures forall id, externalId :: Holds(ws[i], id, externalId) ==> ws[i].rows[id].message.status == Sent
    ensures forall a, b, externalId :: Holds(ws[i], a, externalId) && Holds(ws[i], b, externalId) ==> a == b
  {
    EveryRunKeepsInv(cfg, ws, steps, i);
    forall a, b, externalId | Holds(ws[i], a, externalId) && Holds(ws[i], b, externalId)
      ensures a == b
    {
      assert RowOk(cfg, ws[i].now, ws[i].rows[a]) && RowOk(cfg, ws[i].now, ws[i].rows[b]);
      assert externalId in ws[i].rows[a].returned && externalId in ws[i].rows[b].returned;
    }
  }

  // ---------------------------------------------------------------- bounded failures

  /** The step saves a rejected send of row `id` while the row is pending. */
  ghost predicate SavesFailure(w: World, s: Step, id: RowId) {
    && s.Save? && Dispatching(w, s.worker) && w.workers[s.worker].reply.Some?
    && w.workers[s.worker].batch[0].row == id && w.workers[s.worker].reply.value.Rejected?
    && id in w.rows && w.rows[id].message.status == Pending
  }

  ghost function FailureSaves(ws: seq<World>, steps: seq<Step>, id: RowId, i: nat, j: nat): nat
    requires i <= j <= |steps| && |ws| == |steps| + 1
  {
    if i == j then 0
    else FailureSaves(ws, steps, id, i, j - 1) + (if SavesFailure(ws[j - 1], steps[j - 1], id) then 1 else 0)
  }

  ghost predicate NoRequeue(steps: seq<Step>, id: RowId, i: nat, j: nat)
    requires i <= j <= |steps|
  {
    forall t :: i <= t < j ==> steps[t] != Requeue(id)
  }

  /** The row spent `failures` attempts, and if it was resolved it stayed as it was. */
  ghost predicate Spent(before: Message, after: Message, failures: nat) {
    && after.maxAttempts == before.maxAttempts
    && after.attempts == before.attempts + failures
    && (before.status != Pending ==> after.status == before.status)
  }

  lemma SaveSpends(m: Message, reply: Reply, now: int, schedule: seq<int>)
    requires ValidSchedule(schedule)
    ensures Spent(m, SaveReply(m, reply, now, schedule).0, if reply.Rejected? && m.status == Pending then 1 else 0)
  {
  }

  lemma NoticeSpends(row: Row, status: DeliveryStatus, error: Option<string>, at: int)
    ensures Spent(row.message, NoticeRow(row, status, error, at).message, 0)
  {
    match status
    case DeliveryFailed =>
    case Delivered =>
    case Read =>
  }

  lemma SaveStepSpends(cfg: Config, w: World, k: WorkerId, id: RowId)
    requires cfg.Valid() && Enabled(cfg, w, Save(k)) && Inv(cfg, w) && id in w.rows
    ensures var w' := Apply(cfg, w, Save(k));
            id in w'.rows
            && Spent(w.rows[id].message, w'.rows[id].message, if SavesFailure(w, Save(k), id) then 1 else 0)
  {
    SaveSpends(w.rows[id].message, w.workers[k].reply.value, w.now, cfg.schedule);
  }

  lemma StepSpends(cfg: Config, w: World, s: Step, id: RowId)
    requires cfg.Valid() && Enabled(cfg, w, s) && Inv(cfg, w) && id in w.rows && s != Requeue(id)
    ensures var w' := Apply(cfg, w, s);
            id in w'.rows
            && Spent(w.rows[id].message, w'.rows[id].message, if SavesFailure(w, s, id) then 1 else 0)
  {
    match s
    case Save(k) => SaveStepSpends(cfg, w, k, id);
    case Notice(_, _, _) => NoticeStepSpends(cfg, w, s, id);
    case Claim(k, picked) => ClaimSpends(cfg, w, k, picked, id);
    case InvalidateLinks(ids) => InvalidateSpends(cfg, w, ids, id);
    case _ => QuietStepSpends(cfg, w, s, id);
  }

  lemma NoticeStepSpends(cfg: Config, w: World, s: Step, id: RowId)
    requires cfg.Valid() && s.Notice? && id in w.rows && Inv(cfg, w)
    ensures id in Apply(cfg, w, s).rows && Spent(w.rows[id].message, Apply(cfg, w, s).rows[id].message, 0)
  {
    NoticeSpends(w.rows[id], s.status, s.error, w.now);
  }

  lemma ClaimSpends(cfg: Config, w: World, k: WorkerId, picked: seq<RowId>, id: RowId)
    requires cfg.Valid() && Enabled(cfg, w, Claim(k, picked)) && id in w.rows
    ensures id in ApplyClaim(cfg, w, k, picked).rows
    ensures Spent(w.rows[id].message, ApplyClaim(cfg, w, k, picked).rows[id].message, 0)
  {
  }

  lemma InvalidateSpends(cfg: Config, w: World, ids: set<RowId>, id: RowId)
    requires cfg.Valid() && id in w.rows
    ensures id in Apply(cfg, w, InvalidateLinks(ids)).rows
    ensures Spent(w.rows[id].message, Apply(cfg, w, InvalidateLinks(ids)).rows[id].message, 0)
  {
  }

  lemma QuietStepSpends(cfg: Config, w: World, s: Step, id: RowId)
    requires cfg.Valid() && Enabled(cfg, w, s) && id in w.rows && s != Requeue(id)
    requires !s.Save? && !s.Notice? && !s.Claim? && !s.InvalidateLinks?
    ensures var w' := Apply(cfg, w, s);
            id in w'.rows && Spent(w.rows[id].message, w'.rows[id].message, 0)
  {
  }

  /** What step `t` of the run takes from the row. */
  ghost predicate SpendsAt(ws: seq<World>, steps: seq<Step>, id: RowId, t: nat)
    requires t < |steps| && |ws| == |steps| + 1
  {
    id in ws[t].rows ==>
      && id in ws[t + 1].rows
      && Spent(ws[t].rows[id].message, ws[t + 1].rows[id].message, if SavesFailure(ws[t], steps[t], id) then 1 else 0)
  }

  lemma RunStepSpends(cfg: Config, ws: seq<World>, steps: seq<Step>, id: RowId, t: nat)
    requires Run(cfg, ws, steps) && t < |steps| && steps[t] != Requeue(id)
    ensures SpendsAt(ws, steps, id, t)
  {
    EveryRunKeepsInv(cfg, ws, steps, t);
    if id in ws[t].rows {
      StepSpends(cfg, ws[t], steps[t], id);
    }
  }

  lemma {:induction false} SpendingAddsUp(ws: seq<World>, steps: seq<Step>, id: RowId, i: nat, j: nat)
    requires |ws| == |steps| + 1 && i <= j <= |steps| && id in ws[i].rows
    requires forall t :: i <= t < j ==> SpendsAt(ws, steps, id, t)
    ensures id in ws[j].rows
    ensures Spent(ws[i].rows[id].message, ws[j].rows[id].message, FailureSaves(ws, steps, id, i, j))
  {
    if i < j {
      SpendingAddsUp(ws, steps, id, i, j - 1);
      assert SpendsAt(ws, steps, id, j - 1);
    }
  }

  lemma RunSpends(cfg: Config, ws: seq<World>, steps: seq<Step>, id: RowId, i: nat, j: nat)
    requires Run(cfg, ws, steps) && i <= j <= |steps| && id in ws[i].rows && NoRequeue(steps, id, i, j)
    ensures id in ws[j].rows
    ensures Spent(ws[i].rows[id].message, ws[j].rows[id].message, FailureSaves(ws, steps, id, i, j))
  {
    forall t | i <= t < j ensures SpendsAt(ws, steps, id, t) {
      RunStepSpends(cfg, ws, steps, id, t);
    }
    SpendingAddsUp(ws, steps, id, i, j);
  }

  /** Between operator retries, failure saves are exactly the attempts spent: they never exceed the
      maximum, once they reach it the row has failed, and a resolved row stays as it was resolved. */
  lemma FailuresAreBounded(cfg: Config, ws: seq<World>, steps: seq<Step>, id: RowId, i: nat, j: nat)
    requires Run(cfg, ws, steps) && i <= j <= |steps| && id in ws[i].rows && NoRequeue(steps, id, i, j)
    ensures id in ws[j].rows
    ensures var first, last := ws[i].rows[id].message, ws[j].rows[id].message;
            var failures := FailureSaves(ws, steps, id, i, j);
            && failures <= first.maxAttempts - first.attempts
            && (failures == first.maxAttempts - first.attempts ==> last.status == Failed)
            && (first.status != Pending ==> last.status == first.status)
  {
    RunSpends(cfg, ws, steps, id, i, j);
    EveryRunKeepsInv(cfg, ws, steps, j);
    assert WellFormed(ws[j].rows[id].message);
  }

  // ---------------------------------------------------------------- delivery knowledge

  /** In every run the delivery status is the join of the notices applied since the current id was saved,
      so it depends only on which notices arrived; the row keeps the last saved id and, while sent,
      the one before it. */
  lemma DeliveryIsTheJoinOfItsNotices(cfg: Config, ws: seq<World>, steps: seq<Step>, i: nat, id: RowId,
                                      others: seq<DeliveryStatus>)
    requires Run(cfg, ws, steps) && i < |ws| && id in ws[i].rows
    ensures var row := ws[i].rows[id];
            && row.message.deliveryStatus == JoinAll(row.notices)
            && ((forall d :: d in others <==> d in row.notices) ==> row.message.deliveryStatus == JoinAll(others))
            && IdsFollowHistory(row)
  {
    EveryRunKeepsInv(cfg, ws, steps, i);
    var row := ws[i].rows[id];
    if forall d :: d in others <==> d in row.notices {
      JoinAllDependsOnTheSetOnly(row.notices, others);
    }
  }

  /** A notice for an id that no row currently holds changes nothing; in particular one for an id that a
      retry superseded. A notice for the current id changes that row only. */
  lemma NoticesReachOnlyTheCurrentId(cfg: Config, w: World, externalId: string, status: DeliveryStatus,
                                     error: Option<string>, id: RowId)
    requires cfg.Valid() && Inv(cfg, w) && id in w.rows && externalId in w.rows[id].returned
    ensures var w' := Apply(cfg, w, Notice(externalId, status, error));
            && (w.rows[id].message.externalId != Some(externalId) ==> w' == w)
            && (w.rows[id].message.externalId == Some(externalId) ==>
                  && w'.rows.Keys == w.rows.Keys
                  && w'.rows[id].notices == w.rows[id].notices + [status]
                  && forall other :: other in w.rows && other != id ==> w'.rows[other] == w.rows[other])
  {
    var found := FindByExternalId(w, externalId);
    if found.Some? {
      var r := found.value;
      assert RowOk(cfg, w.now, w.rows[r]) && Holds(w, r, externalId);
      assert externalId in w.rows[r].returned;
      assert r == id;
      NoticeRaisesToTheJoin(w.rows[r].message, status, error, w.now);
    } else {
      assert !Holds(w, id, externalId);
    }
  }

  // ---------------------------------------------------------------- one send per generation

  /** A step that keeps these promises: claimed work is saved within so many seconds of its claim, and nothing loses
      a result the gateway already accepted. */
  ghost predicate PromptWithin(limit: int, w: World, s: Step) {
    match s
    case Tick(seconds) =>
      forall k, i :: k in w.workers && 0 <= i < |w.workers[k].batch| ==>
        w.now + seconds < w.workers[k].batch[i].at + limit
    case Crash(k) => k in w.workers ==> !AcceptedUnsaved(w, k)
    case SaveRaises(k) => k in w.workers ==> !AcceptedUnsaved(w, k)
    case Send(_, gateway) => gateway.Accepted? ==> ValidExternalId(gateway.externalId)
    case _ => true
  }

  /** What the lease relies on: claimed work is saved before its lease ends. */
  ghost predicate Prompt(cfg: Config, w: World, s: Step) {
    PromptWithin(cfg.lease, w, s)
  }

  ghost predicate AcceptedUnsaved(w: World, k: WorkerId)
    requires k in w.workers
  {
    w.workers[k].reply.Some? && w.workers[k].reply.value.Accepted?
  }

  ghost predicate HoldsClaim(w: World, k: WorkerId, i: int) {
    k in w.workers && 0 <= i < |w.workers[k].batch|
  }

  function LastSends(row: Row): nat
    requires row.sends != []
  {
    row.sends[|row.sends| - 1]
  }

  /** A held row is either still under its own unexpired lease, or was invalidated for good. */
  ghost predicate Guarded(cfg: Config, now: int, c: Claimed, m: Message) {
    && now < c.at + cfg.lease
    && (|| (m.status == Pending && m.nextAttemptAt == c.at + cfg.lease)
        || (m.status == Failed && m.payload == None))
  }

  ghost predicate LeasesHold(cfg: Config, w: World) {
    forall k, i :: HoldsClaim(w, k, i) ==>
      && w.workers[k].batch[i].row in w.rows
      && Guarded(cfg, w.now, w.workers[k].batch[i], w.rows[w.workers[k].batch[i].row].message)
  }

  ghost predicate Exclusive(w: World) {
    forall k1, i1, k2, i2 :: HoldsClaim(w, k1, i1) && HoldsClaim(w, k2, i2) && (k1 != k2 || i1 != i2) ==>
      w.workers[k1].batch[i1].row != w.workers[k2].batch[i2].row
  }

  ghost predicate SendsOnce(row: Row) {
    row.sends != [] && forall g :: 0 <= g < |row.sends| ==> row.sends[g] <= 1
  }

  /** The gateway accepted the row in its current queueing generation. */
  ghost predicate SentAlready(w: World, id: RowId) {
    id in w.rows && w.rows[id].sends != [] && LastSends(w.rows[id]) == 1
  }

  ghost predicate SentByHolder(w: World, id: RowId) {
    exists k :: HoldsClaim(w, k, 0) && w.workers[k].batch[0].row == id && AcceptedUnsaved(w, k)
  }

  ghost predicate SendsAccounted(w: World) {
    && (forall id :: id in w.rows ==> SendsOnce(w.rows[id]))
    && (forall k, i :: HoldsClaim(w, k, i) && SentAlready(w, w.workers[k].batch[i].row) ==>
        i == 0 && AcceptedUnsaved(w, k))
    && (forall id :: SentAlready(w, id) && w.rows[id].message.status == Pending ==> SentByHolder(w, id))
  }

  ghost predicate PromptInv(cfg: Config, w: World) {
    LeasesHold(cfg, w) && Exclusive(w) && SendsAccounted(w)
  }

  // Claiming: a due row is held by nobody and was not sent in its generation.

  ghost predicate Untouched(w: World, picked: seq<RowId>) {
    forall r {:trigger r in picked} :: r in picked ==>
      && r in w.rows && !SentAlready(w, r)
      && forall j, n :: HoldsClaim(w, j, n) ==> w.workers[j].batch[n].row != r
  }

  lemma DueRowsAreUntouched(cfg: Config, w: World, picked: seq<RowId>)
    requires cfg.Valid() && PromptInv(cfg, w) && Claimable(Messages(w), picked, w.now, cfg.limit)
    ensures Untouched(w, picked)
  {
    forall r | r in picked
      ensures r in w.rows && !SentAlready(w, r)
      ensures forall j, n :: HoldsClaim(w, j, n) ==> w.workers[j].batch[n].row != r
    {
      assert Due(Messages(w), r, w.now);
      forall j, n | HoldsClaim(w, j, n)
        ensures w.workers[j].batch[n].row != r
      {
        assert Guarded(cfg, w.now, w.workers[j].batch[n], w.rows[w.workers[j].batch[n].row].message);
      }
      assert SentAlready(w, r) ==> SentByHolder(w, r);
    }
  }

  /** After a claim, worker `k` holds exactly `picked` and every other worker what it held. */
  lemma ClaimedBatches(cfg: Config, w: World, k: WorkerId, picked: seq<RowId>)
    requires cfg.Valid() && Enabled(cfg, w, Claim(k, picked))
    ensures var w' := ApplyClaim(cfg, w, k, picked);
            && w'.rows.Keys == w.rows.Keys
            && (forall r :: r in picked <==> exists n :: HoldsClaim(w', k, n) && picked[n] == r)
            && (forall n :: HoldsClaim(w', k, n) ==>
                  w'.workers[k].batch[n] == Claimed(picked[n], w'.rows[picked[n]].message, w.now))
            && (forall j, n :: j != k ==> (HoldsClaim(w', j, n) <==> HoldsClaim(w, j, n)))
            && (forall j :: j != k && j in w.workers ==> w'.workers[j] == w.workers[j])
  {
    var w' := ApplyClaim(cfg, w, k, picked);
    assert forall i :: 0 <= i < |picked| ==> Due(Messages(w), picked[i], w.now);
    forall r | r in picked
      ensures exists n :: HoldsClaim(w', k, n) && picked[n] == r
    {
      var n :| 0 <= n < |picked| && picked[n] == r;
      assert HoldsClaim(w', k, n);
    }
  }

  lemma ClaimKeepsLeases(cfg: Config, w: World, k: WorkerId, picked: seq<RowId>)
    requires cfg.Valid() && PromptInv(cfg, w) && Enabled(cfg, w, Claim(k, picked))
    ensures LeasesHold(cfg, ApplyClaim(cfg, w, k, picked))
  {
    DueRowsAreUntouched(cfg, w, picked);
    ClaimedBatches(cfg, w, k, picked);
    var w' := ApplyClaim(cfg, w, k, picked);
    forall j, n | HoldsClaim(w', j, n)
      ensures w'.workers[j].batch[n].row in w'.rows
      ensures Guarded(cfg, w'.now, w'.workers[j].batch[n], w'.rows[w'.workers[j].batch[n].row].message)
    {
      var r := w'.workers[j].batch[n].row;
      if j == k {
        assert r in picked && Due(Messages(w), r, w.now);
      } else {
        assert HoldsClaim(w, j, n) && r !in picked;
      }
    }
  }

  lemma ClaimKeepsExclusive(cfg: Config, w: World, k: WorkerId, picked: seq<RowId>)
    requires cfg.Valid() && PromptInv(cfg, w) && Enabled(cfg, w, Claim(k, picked))
    ensures Exclusive(ApplyClaim(cfg, w, k, picked))
  {
    DueRowsAreUntouched(cfg, w, picked);
    ClaimedBatches(cfg, w, k, picked);
    var w' := ApplyClaim(cfg, w, k, picked);
    forall k1, i1, k2, i2 | HoldsClaim(w', k1, i1) && HoldsClaim(w', k2, i2) && (k1 != k2 || i1 != i2)
      ensures w'.workers[k1].batch[i1].row != w'.workers[k2].batch[i2].row
    {
      assert k1 != k ==> HoldsClaim(w, k1, i1);
      assert k2 != k ==> HoldsClaim(w, k2, i2);
    }
  }

  /** Leasing changes neither what was sent nor the status of any row. */
  lemma ClaimLeavesSends(cfg: Config, w: World, k: WorkerId, picked: seq<RowId>)
    requires cfg.Valid() && Enabled(cfg, w, Claim(k, picked))
    ensures var w' := ApplyClaim(cfg, w, k, picked);
            && w'.rows.Keys == w.rows.Keys
            && (forall r :: r in w.rows ==>
                  w'.rows[r].sends == w.rows[r].sends && w'.rows[r].message.status == w.rows[r].message.status)
            && (forall r :: SentAlready(w', r) <==> SentAlready(w, r))
  {
  }

  lemma ClaimKeepsHolders(cfg: Config, w: World, k: WorkerId, picked: seq<RowId>, r: RowId)
    requires cfg.Valid() && Enabled(cfg, w, Claim(k, picked)) && SentByHolder(w, r) && !HoldsClaim(w, k, 0)
    ensures SentByHolder(ApplyClaim(cfg, w, k, picked), r)
  {
    ClaimedBatches(cfg, w, k, picked);
    var j :| HoldsClaim(w, j, 0) && w.workers[j].batch[0].row == r && AcceptedUnsaved(w, j);
    assert j != k && HoldsClaim(ApplyClaim(cfg, w, k, picked), j, 0);
  }

  lemma ClaimKeepsSends(cfg: Config, w: World, k: WorkerId, picked: seq<RowId>)
    requires cfg.Valid() && PromptInv(cfg, w) && Enabled(cfg, w, Claim(k, picked))
    ensures SendsAccounted(ApplyClaim(cfg, w, k, picked))
  {
    DueRowsAreUntouched(cfg, w, picked);
    ClaimedBatches(cfg, w, k, picked);
    ClaimLeavesSends(cfg, w, k, picked);
    var w' := ApplyClaim(cfg, w, k, picked);
    forall r | r in w'.rows ensures SendsOnce(w'.rows[r]) {
      assert SendsOnce(w.rows[r]);
    }
    forall r | SentAlready(w', r) && w'.rows[r].message.status == Pending ensures SentByHolder(w', r) {
      ClaimKeepsHolders(cfg, w, k, picked, r);
    }
  }

  // Sending: only the exclusive holder sends, and only what its generation has not sent.

  lemma SendKeepsPrompt(cfg: Config, w: World, k: WorkerId, gateway: Reply)
    requires cfg.Valid() && Inv(cfg, w) && PromptInv(cfg, w) && Enabled(cfg, w, Send(k, gateway))
    ensures PromptInv(cfg, ApplySend(w, k, gateway))
  {
    assert HoldsClaim(w, k, 0);
    SendAccounted(w, k, gateway);
    SendKeepsClaims(w, k, gateway);
    var w' := ApplySend(w, k, gateway);
    forall j, n | HoldsClaim(w', j, n)
      ensures w'.workers[j].batch[n].row in w'.rows
      ensures Guarded(cfg, w'.now, w'.workers[j].batch[n], w'.rows[w'.workers[j].batch[n].row].message)
    {
      assert HoldsClaim(w, j, n);
    }
  }

  lemma SendKeepsClaims(w: World, k: WorkerId, gateway: Reply)
    requires HoldsClaim(w, k, 0)
    ensures var w' := ApplySend(w, k, gateway);
            && w'.now == w.now
            && (forall j, n :: HoldsClaim(w', j, n) <==> HoldsClaim(w, j, n))
            && (forall j :: j in w.workers ==> j in w'.workers && w'.workers[j].batch == w.workers[j].batch)
            && (forall r :: r in w.rows ==> r in w'.rows && w'.rows[r].message == w.rows[r].message)
  {
  }

  /** Only the row being sent changes what was sent of it, and its holder now waits to save the result. */
  lemma SendChangesItsRow(w: World, k: WorkerId, gateway: Reply)
    requires SendsAccounted(w) && HoldsClaim(w, k, 0) && w.workers[k].reply == None
    requires w.workers[k].batch[0].row in w.rows
    ensures var w', id := ApplySend(w, k, gateway), w.workers[k].batch[0].row;
      && (forall r :: r in w'.rows ==> SendsOnce(w'.rows[r]))
      && (SentAlready(w', id) ==> AcceptedUnsaved(w', k))
      && (forall r :: r != id ==> (SentAlready(w', r) <==> SentAlready(w, r)))
      && (forall j :: j != k && j in w.workers ==> j in w'.workers && w'.workers[j] == w.workers[j])
  {
    var w', id := ApplySend(w, k, gateway), w.workers[k].batch[0].row;
    assert !SentAlready(w, id);
    assert SendsOnce(w.rows[id]) && LastSends(w.rows[id]) == 0;
    assert SendsOnce(w'.rows[id]);
  }

  lemma SendAccounted(w: World, k: WorkerId, gateway: Reply)
    requires SendsAccounted(w) && Exclusive(w) && HoldsClaim(w, k, 0) && w.workers[k].reply == None
    requires w.workers[k].batch[0].row in w.rows
    ensures SendsAccounted(ApplySend(w, k, gateway))
  {
    var w', id := ApplySend(w, k, gateway), w.workers[k].batch[0].row;
    SendKeepsClaims(w, k, gateway);
    SendChangesItsRow(w, k, gateway);
    forall j, n | HoldsClaim(w', j, n) && SentAlready(w', w'.workers[j].batch[n].row)
      ensures n == 0 && AcceptedUnsaved(w', j)
    {
      assert HoldsClaim(w, j, n);
      if w.workers[j].batch[n].row == id {
        assert j == k && n == 0;
      } else {
        assert j != k;
      }
    }
    forall r | SentAlready(w', r) && w'.rows[r].message.status == Pending
      ensures SentByHolder(w', r)
    {
      if r == id {
        assert HoldsClaim(w', k, 0);
      } else {
        var j :| HoldsClaim(w, j, 0) && w.workers[j].batch[0].row == r && AcceptedUnsaved(w, j);
        assert j != k && HoldsClaim(w', j, 0);
      }
    }
  }

  // Saving: the head leaves the batch, resolved or waiting for its next attempt.

  lemma PopKeepsPrompt(cfg: Config, w: World, k: WorkerId, row: Row)
    requires cfg.Valid() && PromptInv(cfg, w) && HoldsClaim(w, k, 0)
    requires row.sends == w.rows[w.workers[k].batch[0].row].sends
    requires AcceptedUnsaved(w, k) ==> row.message.status != Pending
    ensures PromptInv(cfg, SetRow(w.(workers := w.workers[k := Pop(w.workers[k])]), w.workers[k].batch[0].row, row))
  {
    var id := w.workers[k].batch[0].row;
    var w' := SetRow(w.(workers := w.workers[k := Pop(w.workers[k])]), id, row);
    PopLeavesOthers(w, k, row);
    assert LeasesHold(cfg, w') by {
      forall j, n | HoldsClaim(w', j, n)
        ensures w'.workers[j].batch[n].row in w'.rows
        ensures Guarded(cfg, w'.now, w'.workers[j].batch[n], w'.rows[w'.workers[j].batch[n].row].message)
      {
        assert HoldsClaim(w, j, Before(w, k, j, n));
      }
    }
    assert forall r :: SentAlready(w', r) <==> SentAlready(w, r);
    assert SentAlready(w, id) ==> AcceptedUnsaved(w, k);
    forall r | SentAlready(w', r) && w'.rows[r].message.status == Pending
      ensures SentByHolder(w', r)
    {
      var j :| HoldsClaim(w, j, 0) && w.workers[j].batch[0].row == r && AcceptedUnsaved(w, j);
      assert j != k && HoldsClaim(w', j, 0);
    }
  }

  /** Where the `n`th claim of worker `j` stood before worker `k` dropped its head. */
  function Before(w: World, k: WorkerId, j: WorkerId, n: int): int {
    if j == k then n + 1 else n
  }

  lemma PopLeavesOthers(w: World, k: WorkerId, row: Row)
    requires HoldsClaim(w, k, 0) && Exclusive(w)
    ensures var w' := SetRow(w.(workers := w.workers[k := Pop(w.workers[k])]), w.workers[k].batch[0].row, row);
            && Exclusive(w')
            && forall j, n :: HoldsClaim(w', j, n) ==>
                 && HoldsClaim(w, j, Before(w, k, j, n))
                 && w'.workers[j].batch[n] == w.workers[j].batch[Before(w, k, j, n)]
                 && w'.workers[j].batch[n].row != w.workers[k].batch[0].row
                 && (AcceptedUnsaved(w', j) <==> j != k && AcceptedUnsaved(w, j))
  {
    var w' := SetRow(w.(workers := w.workers[k := Pop(w.workers[k])]), w.workers[k].batch[0].row, row);
    forall j, n | HoldsClaim(w', j, n)
      ensures HoldsClaim(w, j, Before(w, k, j, n))
      ensures w'.workers[j].batch[n] == w.workers[j].batch[Before(w, k, j, n)]
      ensures w'.workers[j].batch[n].row != w.workers[k].batch[0].row
      ensures AcceptedUnsaved(w', j) <==> j != k && AcceptedUnsaved(w, j)
    {
      assert HoldsClaim(w, j, Before(w, k, j, n));
    }
    forall k1, i1, k2, i2 | HoldsClaim(w', k1, i1) && HoldsClaim(w', k2, i2) && (k1 != k2 || i1 != i2)
      ensures w'.workers[k1].batch[i1].row != w'.workers[k2].batch[i2].row
    {
      assert HoldsClaim(w, k1, Before(w, k, k1, i1)) && HoldsClaim(w, k2, Before(w, k, k2, i2));
    }
  }

  lemma SaveKeepsPrompt(cfg: Config, w: World, s: Step)
    requires cfg.Valid() && Inv(cfg, w) && PromptInv(cfg, w) && Enabled(cfg, w, s) && Prompt(cfg, w, s)
    requires s.Save? || s.SaveRaises?
    requires AcceptedUnsaved(w, s.worker) ==> ValidExternalId(w.workers[s.worker].reply.value.externalId)
    ensures PromptInv(cfg, Apply(cfg, w, s))
  {
    var k := s.worker;
    assert HoldsClaim(w, k, 0);
    var id := w.workers[k].batch[0].row;
    if s.Save? {
      PopKeepsPrompt(cfg, w, k, SaveRow(w.rows[id], w.workers[k].reply.value, w.now, cfg.schedule));
    } else {
      PopKeepsPrompt(cfg, w, k, w.rows[id]);
      assert w.rows[id := w.rows[id]] == w.rows;
    }
  }

  lemma CrashKeepsPrompt(cfg: Config, w: World, k: WorkerId)
    requires cfg.Valid() && PromptInv(cfg, w) && k in w.workers && !AcceptedUnsaved(w, k)
    ensures PromptInv(cfg, w.(workers := w.workers - {k}))
  {
    var w' := w.(workers := w.workers - {k});
    assert forall j, n :: HoldsClaim(w', j, n) <==> j != k && HoldsClaim(w, j, n);
    forall r | SentAlready(w', r) && w'.rows[r].message.status == Pending
      ensures SentByHolder(w', r)
    {
      assert SentAlready(w, r);
      var j :| HoldsClaim(w, j, 0) && w.workers[j].batch[0].row == r && AcceptedUnsaved(w, j);
      assert HoldsClaim(w', j, 0);
    }
  }

  /** Rewriting rows without touching the workers: a held row must stay guarded, and a row may only
      become pending in a fresh generation. */
  lemma RewriteKeepsPrompt(cfg: Config, w: World, rows: map<RowId, Row>)
    requires cfg.Valid() && PromptInv(cfg, w) && w.rows.Keys <= rows.Keys
    requires forall r :: r in rows ==> SendsOnce(rows[r])
    requires forall r :: r in rows && r !in w.rows ==> SendsOnce(rows[r]) && LastSends(rows[r]) == 0
    requires forall r :: r in w.rows ==>
      || rows[r] == w.rows[r]
      || (rows[r].sends == w.rows[r].sends && rows[r].message == Invalidate(w.rows[r].message))
      || (w.rows[r].message.status != Pending && w.rows[r].message.payload.Some?
          && (rows[r].message.status == Pending ==> SendsOnce(rows[r]) && LastSends(rows[r]) == 0))
      || (w.rows[r].message.status == Sent && rows[r].message.status == Sent)
    ensures PromptInv(cfg, w.(rows := rows))
  {
    var w' := w.(rows := rows);
    assert forall j, n :: HoldsClaim(w', j, n) <==> HoldsClaim(w, j, n);
    forall j, n | HoldsClaim(w', j, n)
      ensures rows[w.workers[j].batch[n].row].sends == w.rows[w.workers[j].batch[n].row].sends
      ensures Guarded(cfg, w'.now, w.workers[j].batch[n], rows[w.workers[j].batch[n].row].message)
    {
      assert HoldsClaim(w, j, n);
      assert Guarded(cfg, w.now, w.workers[j].batch[n], w.rows[w.workers[j].batch[n].row].message);
    }
    forall r | SentAlready(w', r) && w'.rows[r].message.status == Pending
      ensures SentByHolder(w', r)
    {
      assert SentAlready(w, r);
      var j :| HoldsClaim(w, j, 0) && w.workers[j].batch[0].row == r && AcceptedUnsaved(w, j);
      assert HoldsClaim(w', j, 0);
    }
  }

  /** Accepted replies waiting to be saved carry ids the row will take. */
  ghost predicate RepliesSavable(w: World) {
    forall k :: k in w.workers && AcceptedUnsaved(w, k) ==> ValidExternalId(w.workers[k].reply.value.externalId)
  }

  lemma NoticeKeepsPrompt(cfg: Config, w: World, externalId: string, status: DeliveryStatus, error: Option<string>)
    requires cfg.Valid() && Inv(cfg, w) && PromptInv(cfg, w)
    ensures PromptInv(cfg, Apply(cfg, w, Notice(externalId, status, error)))
  {
    var found := FindByExternalId(w, externalId);
    if found.Some? {
      var row := w.rows[found.value];
      NoticeSpends(row, status, error, w.now);
      assert SendsOnce(row);
      RewriteKeepsPrompt(cfg, w, w.rows[found.value := NoticeRow(row, status, error, w.now)]);
    }
  }

  lemma RequeueKeepsPrompt(cfg: Config, w: World, id: RowId)
    requires cfg.Valid() && Inv(cfg, w) && PromptInv(cfg, w) && Enabled(cfg, w, Requeue(id))
    ensures PromptInv(cfg, Apply(cfg, w, Requeue(id)))
  {
    assert WellFormed(w.rows[id].message) && SendsOnce(w.rows[id]);
    RewriteKeepsPrompt(cfg, w, w.rows[id := RequeueRow(w.rows[id], w.now)]);
  }

  lemma EnqueueKeepsPrompt(cfg: Config, w: World, s: Step)
    requires cfg.Valid() && PromptInv(cfg, w) && s.Enqueue? && Enabled(cfg, w, s)
    ensures PromptInv(cfg, Apply(cfg, w, s))
  {
    RewriteKeepsPrompt(cfg, w, Apply(cfg, w, s).rows);
  }

  lemma InvalidateKeepsPrompt(cfg: Config, w: World, s: Step)
    requires cfg.Valid() && PromptInv(cfg, w) && s.InvalidateLinks?
    ensures PromptInv(cfg, Apply(cfg, w, s))
  {
    RewriteKeepsPrompt(cfg, w, Apply(cfg, w, s).rows);
  }

  lemma StepKeepsReplies(cfg: Config, w: World, s: Step)
    requires cfg.Valid() && RepliesSavable(w) && Enabled(cfg, w, s) && Prompt(cfg, w, s)
    ensures RepliesSavable(Apply(cfg, w, s))
  {
  }

  lemma StepKeepsPrompt(cfg: Config, w: World, s: Step)
    requires cfg.Valid() && Inv(cfg, w) && PromptInv(cfg, w) && RepliesSavable(w)
    requires Enabled(cfg, w, s) && Prompt(cfg, w, s)
    ensures PromptInv(cfg, Apply(cfg, w, s)) && RepliesSavable(Apply(cfg, w, s))
  {
    StepKeepsReplies(cfg, w, s);
    match s
    case Tick(_) => TickKeepsPrompt(cfg, w, s);
    case Enqueue(_, _, _, _) => EnqueueKeepsPrompt(cfg, w, s);
    case Claim(k, picked) =>
      ClaimKeepsLeases(cfg, w, k, picked);
      ClaimKeepsExclusive(cfg, w, k, picked);
      ClaimKeepsSends(cfg, w, k, picked);
    case Send(k, gateway) => SendKeepsPrompt(cfg, w, k, gateway);
    case Save(_) => SaveKeepsPrompt(cfg, w, s);
    case SaveRaises(_) => SaveKeepsPrompt(cfg, w, s);
    case Crash(k) => CrashKeepsPrompt(cfg, w, k);
    case Requeue(id) => RequeueKeepsPrompt(cfg, w, id);
    case InvalidateLinks(_) => InvalidateKeepsPrompt(cfg, w, s);
    case Notice(externalId, status, error) => NoticeKeepsPrompt(cfg, w, externalId, status, error);
  }

  lemma TickKeepsPrompt(cfg: Config, w: World, s: Step)
    requires cfg.Valid() && PromptInv(cfg, w) && s.Tick? && Prompt(cfg, w, s)
    ensures PromptInv(cfg, Apply(cfg, w, s))
  {
    var w' := Apply(cfg, w, s);
    assert forall j, n :: HoldsClaim(w', j, n) <==> HoldsClaim(w, j, n);
    forall j, n | HoldsClaim(w', j, n)
      ensures Guarded(cfg, w'.now, w.workers[j].batch[n], w.rows[w.workers[j].batch[n].row].message)
    {
      assert HoldsClaim(w, j, n);
      assert Guarded(cfg, w.now, w.workers[j].batch[n], w.rows[w.workers[j].batch[n].row].message);
    }
    forall r | SentAlready(w', r) && w'.rows[r].message.status == Pending
      ensures SentByHolder(w', r)
    {
      var j :| HoldsClaim(w, j, 0) && w.workers[j].batch[0].row == r && AcceptedUnsaved(w, j);
      assert HoldsClaim(w', j, 0);
    }
  }

  ghost predicate PromptRun(cfg: Config, ws: seq<World>, steps: seq<Step>) {
    Run(cfg, ws, steps) && forall i :: 0 <= i < |steps| ==> Prompt(cfg, ws[i], steps[i])
  }

  lemma {:induction false} PromptRunsKeepInv(cfg: Config, ws: seq<World>, steps: seq<Step>, i: nat)
    requires PromptRun(cfg, ws, steps) && i < |ws|
    ensures Inv(cfg, ws[i]) && PromptInv(cfg, ws[i]) && RepliesSavable(ws[i])
  {
    EveryRunKeepsInv(cfg, ws, steps, i);
    if i > 0 {
      PromptRunsKeepInv(cfg, ws, steps, i - 1);
      StepKeepsPrompt(cfg, ws[i - 1], steps[i - 1]);
    }
  }

  /** Every queueing generation of every row was accepted by the gateway at most once. */
  ghost predicate AcceptedAtMostOnce(w: World) {
    forall id, g :: id in w.rows && 0 <= g < |w.rows[id].sends| ==> w.rows[id].sends[g] <= 1
  }

  /** With results saved within the lease and no accepted result lost, for any number of workers: no two
      of them ever hold (let alone send) the same row, and every queueing generation of every row is
      accepted by the gateway at most once. */
  lemma AtMostOneAcceptancePerGeneration(cfg: Config, ws: seq<World>, steps: seq<Step>, i: nat)
    requires PromptRun(cfg, ws, steps) && i < |ws|
    ensures AcceptedAtMostOnce(ws[i])
    ensures forall k1, k2 :: Dispatching(ws[i], k1) && Dispatching(ws[i], k2) && k1 != k2 ==>
              ws[i].workers[k1].batch[0].row != ws[i].workers[k2].batch[0].row
  {
    PromptRunsKeepInv(cfg, ws, steps, i);
    forall id, g | id in ws[i].rows && 0 <= g < |ws[i].rows[id].sends|
      ensures ws[i].rows[id].sends[g] <= 1
    {
      assert SendsOnce(ws[i].rows[id]);
    }
    forall k1, k2 | Dispatching(ws[i], k1) && Dispatching(ws[i], k2) && k1 != k2
      ensures ws[i].workers[k1].batch[0].row != ws[i].workers[k2].batch[0].row
    {
      assert HoldsClaim(ws[i], k1, 0) && HoldsClaim(ws[i], k2, 0);
    }
  }

  /** Runs in which every claim is resolved within `limit` seconds and no accepted result is lost. */
  ghost predicate RunWithin(cfg: Config, limit: int, ws: seq<World>, steps: seq<Step>) {
    Run(cfg, ws, steps) && forall i :: 0 <= i < |steps| ==> PromptWithin(limit, ws[i], steps[i])
  }

  lemma OneMore(cfg: Config, limit: int, ws: seq<World>, steps: seq<Step>, s: Step)
    returns (ws': seq<World>, steps': seq<Step>)
    requires RunWithin(cfg, limit, ws, steps) && Enabled(cfg, ws[|steps|], s) && PromptWithin(limit, ws[|steps|], s)
    ensures RunWithin(cfg, limit, ws', steps') && ws'[|steps'|] == Apply(cfg, ws[|steps|], s)
  {
    ws', steps' := ws + [Apply(cfg, ws[|steps|], s)], steps + [s];
    forall i | 0 <= i < |steps'|
      ensures Enabled(cfg, ws'[i], steps'[i]) && ws'[i + 1] == Apply(cfg, ws'[i], steps'[i])
      ensures PromptWithin(limit, ws'[i], steps'[i])
    {
      if i < |steps| {
        assert ws'[i] == ws[i] && steps'[i] == steps[i] && ws'[i + 1] == ws[i + 1];
      } else {
        assert ws'[i] == ws[|steps|] && steps'[i] == s;
      }
    }
  }

  /** Row 0 is due with its content, accepted `n` times in its one generation. */
  ghost predicate DueAgain(w: World, n: nat) {
    && 0 in w.rows && w.rows[0].message.status == Pending && w.rows[0].message.payload.Some?
    && w.rows[0].sends == [n] && w.rows[0].message.nextAttemptAt <= w.now
  }

  /** Row 0, accepted `n` times, falls due again when the lease that worker `k` took at this instant ends. */
  ghost predicate UnderLease(cfg: Config, w: World, k: WorkerId, n: nat) {
    && DueAgain(w.(now := w.now + cfg.lease), n)
    && k in w.workers && forall i :: 0 <= i < |w.workers[k].batch| ==> w.workers[k].batch[i].at == w.now
  }

  lemma RowIsQueued(cfg: Config, limit: int) returns (ws: seq<World>, steps: seq<Step>)
    requires cfg.Valid()
    ensures RunWithin(cfg, limit, ws, steps) && DueAgain(ws[|steps|], 0)
    ensures ws[|steps|].workers == map[] && ws[|steps|].used == {}
  {
    var w0, none: seq<Step> := World(0, map[], map[], {}), [];
    assert RunWithin(cfg, limit, [w0], none);
    ws, steps := OneMore(cfg, limit, [w0], none, Enqueue(0, "hola", false, DEFAULT_MAX_ATTEMPTS));
  }

  lemma RowIsClaimed(cfg: Config, w: World, k: WorkerId, n: nat) returns (s: Step, w': World)
    requires cfg.Valid() && DueAgain(w, n) && k !in w.workers
    ensures Enabled(cfg, w, s) && s.Claim? && w' == Apply(cfg, w, s)
    ensures UnderLease(cfg, w', k, n) && Dispatching(w', k) && w'.workers[k].reply == None
    ensures w'.workers[k].batch[0].row == 0 && w'.workers[k].batch[0].snapshot.payload.Some?
    ensures w'.now == w.now && w'.used == w.used && w'.workers.Keys == w.workers.Keys + {k}
  {
    s := Claim(k, [0]);
    assert Due(Messages(w), 0, w.now);
    w' := Apply(cfg, w, s);
  }

  lemma RowIsSent(cfg: Config, w: World, k: WorkerId, given: string, n: nat) returns (s: Step, w': World)
    requires cfg.Valid() && UnderLease(cfg, w, k, n) && Dispatching(w, k) && w.workers[k].reply == None
    requires w.workers[k].batch[0].row == 0 && w.workers[k].batch[0].snapshot.payload.Some?
    requires given !in w.used && ValidExternalId(given)
    ensures Enabled(cfg, w, s) && s.Send? && PromptWithin(cfg.lease, w, s) && w' == Apply(cfg, w, s)
    ensures UnderLease(cfg, w', k, n + 1) && w'.now == w.now
    ensures w'.used == w.used + {given} && w'.workers.Keys == w.workers.Keys
  {
    s := Send(k, Accepted(given, 7));
    w' := Apply(cfg, w, s);
  }

  /** An idle worker claims the row that is due, and the gateway accepts it once more. */
  lemma RunThatSends(cfg: Config, limit: int, ws: seq<World>, steps: seq<Step>, k: WorkerId, given: string, n: nat)
    returns (ws': seq<World>, steps': seq<Step>)
    requires RunWithin(cfg, limit, ws, steps) && DueAgain(ws[|steps|], n)
    requires k !in ws[|steps|].workers && given !in ws[|steps|].used && ValidExternalId(given)
    ensures RunWithin(cfg, limit, ws', steps') && UnderLease(cfg, ws'[|steps'|], k, n + 1)
    ensures ws'[|steps'|].workers.Keys == ws[|steps|].workers.Keys + {k}
    ensures ws'[|steps'|].used == ws[|steps|].used + {given}
  {
    var claim, claimed := RowIsClaimed(cfg, ws[|steps|], k, n);
    ws', steps' := OneMore(cfg, limit, ws, steps, claim);
    var send, sent := RowIsSent(cfg, claimed, k, given, n);
    ws', steps' := OneMore(cfg, limit, ws', steps', send);
  }

  /** When claims may be resolved later than their lease allows, a worker that outlives its lease has the same
      generation accepted twice. The delivery guarantee of the cycle is at-least-once. */
  lemma AnExpiredLeaseDuplicates(cfg: Config, limit: int) returns (ws: seq<World>, steps: seq<Step>)
    requires cfg.Valid() && limit > cfg.lease
    ensures RunWithin(cfg, limit, ws, steps) && !AcceptedAtMostOnce(ws[|steps|])
  {
    assert "a"[0] == 'a' && "b"[0] == 'b';
    ws, steps := RowIsQueued(cfg, limit);
    ws, steps := RunThatSends(cfg, limit, ws, steps, 1, "a", 0);
    ws, steps := OneMore(cfg, limit, ws, steps, Tick(cfg.lease));
    ws, steps := RunThatSends(cfg, limit, ws, steps, 2, "b", 1);
    assert ws[|steps|].rows[0].sends[0] == 2;
  }

  /** All runs that resolve each claim within `limit` seconds and lose no accepted result accept every queueing
      generation at most once if and only if that limit stays within the lease. */
  lemma AtMostOnceExactlyWithinTheLease(cfg: Config, limit: int)
    requires cfg.Valid()
    ensures (forall ws: seq<World>, steps: seq<Step>, i: nat ::
               RunWithin(cfg, limit, ws, steps) && i < |ws| ==> AcceptedAtMostOnce(ws[i]))
            <==> limit <= cfg.lease
  {
    if limit <= cfg.lease {
      forall ws: seq<World>, steps: seq<Step>, i: nat | RunWithin(cfg, limit, ws, steps) && i < |ws|
        ensures AcceptedAtMostOnce(ws[i])
      {
        forall j | 0 <= j < |steps| ensures Prompt(cfg, ws[j], steps[j]) {
          assert PromptWithin(limit, ws[j], steps[j]);
        }
        AtMostOneAcceptancePerGeneration(cfg, ws, steps, i);
      }
    } else {
      var ws, steps := AnExpiredLeaseDuplicates(cfg, limit);
      assert !AcceptedAtMostOnce(ws[|steps|]);
    }
  }
}
