/**
 * Any number of workers over one outbox, with a clock, crashes, transactions that fail, operators who
 * re-queue messages, links that get invalidated and delivery notices in any order.
 *
 * A worker's batch is the list of messages it claimed and has not resolved yet; the head is the one being
 * dispatched. Each `Row` carries history variables beside the stored message: how many times the gateway
 * accepted it in each queueing generation, every id the gateway returned for it, the ids saved in it, and
 * the notices applied since the last id was saved.
 */
module OutboxDelivery {
  import opened Common
  import opened OutboxMessages
  import opened OutboxDispatch

  type WorkerId = nat

  datatype Config = Config(lease: int, limit: nat, schedule: seq<int>) {
    ghost predicate Valid() {
      lease >= 1 && limit >= 1 && ValidSchedule(schedule)
    }

    /** The furthest a pending row may be from its next attempt. */
    ghost function Horizon(): int
      requires Valid()
    {
      Max(lease, LongestDelay(schedule))
    }
  }

  datatype Row = Row(
    message: Message,
    sends: seq<nat>,
    returned: set<string>,
    saved: seq<string>,
    notices: seq<DeliveryStatus>)

  datatype Claimed = Claimed(row: RowId, snapshot: Message, at: int)

  datatype Worker = Worker(batch: seq<Claimed>, reply: Option<Reply>)

  /** `used` holds every id the gateway ever returned. */
  datatype World = World(now: int, rows: map<RowId, Row>, workers: map<WorkerId, Worker>, used: set<string>)

  datatype Step =
    | Tick(seconds: nat)
    | Enqueue(id: RowId, payload: string, redact: bool, maxAttempts: int)
    | Claim(worker: WorkerId, picked: seq<RowId>)
    | Send(worker: WorkerId, gateway: Reply)
    | Save(worker: WorkerId)
    | SaveRaises(worker: WorkerId)
    | Crash(worker: WorkerId)
    | Requeue(id: RowId)
    | InvalidateLinks(ids: set<RowId>)
    | Notice(externalId: string, status: DeliveryStatus, error: Option<string>)

  // ---------------------------------------------------------------- what each step does to a row

  function NewRow(m: Message): Row {
    Row(m, [0], {}, [], [])
  }

  function AcceptRow(row: Row, id: string): Row {
    row.(returned := row.returned + {id},
         sends := if row.sends == [] then [1]
                  else row.sends[|row.sends| - 1 := row.sends[|row.sends| - 1] + 1])
  }

  function SaveRow(row: Row, reply: Reply, now: int, schedule: seq<int>): Row
    requires ValidSchedule(schedule)
  {
    var (m, outcome) := SaveReply(row.message, reply, now, schedule);
    if outcome == WasSent && reply.Accepted?
    then row.(message := m, saved := row.saved + [reply.externalId], notices := [])
    else row.(message := m)
  }

  function RequeueRow(row: Row, now: int): Row {
    match Retry(row.message, now)
    case Success(m) => row.(message := m, sends := row.sends + [0], notices := [])
    case Failure(_) => row
  }

  function NoticeRow(row: Row, status: DeliveryStatus, error: Option<string>, at: int): Row {
    match RecordDelivery(row.message, status, error, at)
    case Success((m, _)) => row.(message := m, notices := row.notices + [status])
    case Failure(_) => row
  }

  // ---------------------------------------------------------------- steps

  function Messages(w: World): map<RowId, Message> {
    map id | id in w.rows :: w.rows[id].message
  }

  ghost predicate Idle(w: World, k: WorkerId) {
    k !in w.workers || w.workers[k].batch == []
  }

  ghost predicate Dispatching(w: World, k: WorkerId) {
    k in w.workers && w.workers[k].batch != []
  }

  ghost predicate Enabled(cfg: Config, w: World, s: Step) {
    match s
    case Tick(_) => true
    case Enqueue(id, _, _, maxAttempts) => id !in w.rows && maxAttempts >= 1
    case Claim(k, picked) => Idle(w, k) && Claimable(Messages(w), picked, w.now, cfg.limit)
    case Send(k, gateway) =>
      && Dispatching(w, k) && w.workers[k].reply == None
      && (gateway.Accepted? ==> gateway.externalId !in w.used)
    case Save(k) => Dispatching(w, k) && w.workers[k].reply.Some?
    case SaveRaises(k) => Dispatching(w, k) && w.workers[k].reply.Some?
    case Crash(k) => k in w.workers
    case Requeue(id) => id in w.rows && Retry(w.rows[id].message, w.now).Success?
    case InvalidateLinks(_) => true
    case Notice(_, _, _) => true
  }

  ghost predicate Holds(w: World, id: RowId, externalId: string) {
    id in w.rows && w.rows[id].message.externalId == Some(externalId)
  }

  /** The row the notice handler finds by its current external id. */
  ghost function FindByExternalId(w: World, externalId: string): Option<RowId> {
    if exists id :: Holds(w, id, externalId)
    then var id :| Holds(w, id, externalId); Some(id)
    else None
  }

  function SetRow(w: World, id: RowId, row: Row): World {
    w.(rows := w.rows[id := row])
  }

  function Pop(worker: Worker): Worker
    requires worker.batch != []
  {
    Worker(worker.batch[1..], None)
  }

  ghost function Apply(cfg: Config, w: World, s: Step): World
    requires cfg.Valid() && Enabled(cfg, w, s)
  {
    match s
    case Tick(seconds) => w.(now := w.now + seconds)
    case Enqueue(id, payload, redact, maxAttempts) =>
      SetRow(w, id, NewRow(Create(payload, redact, maxAttempts, w.now).value))
    case Claim(k, picked) => ApplyClaim(cfg, w, k, picked)
    case Send(k, gateway) => ApplySend(w, k, gateway)
    case Save(k) =>
      var id := w.workers[k].batch[0].row;
      var w' := w.(workers := w.workers[k := Pop(w.workers[k])]);
      if id in w.rows then SetRow(w', id, SaveRow(w.rows[id], w.workers[k].reply.value, w.now, cfg.schedule)) else w'
    case SaveRaises(k) => w.(workers := w.workers[k := Pop(w.workers[k])])
    case Crash(k) => w.(workers := w.workers - {k})
    case Requeue(id) => SetRow(w, id, RequeueRow(w.rows[id], w.now))
    case InvalidateLinks(ids) =>
      w.(rows := map id | id in w.rows ::
        if id in ids then w.rows[id].(message := Invalidate(w.rows[id].message)) else w.rows[id])
    case Notice(externalId, status, error) =>
      (match FindByExternalId(w, externalId)
       case Some(id) => SetRow(w, id, NoticeRow(w.rows[id], status, error, w.now))
       case None => w)
  }

  function LeasedRows(cfg: Config, w: World, picked: seq<RowId>): map<RowId, Row> {
    map id | id in w.rows ::
      if id in picked then w.rows[id].(message := Leased(w.rows[id].message, w.now + cfg.lease)) else w.rows[id]
  }

  ghost function ApplyClaim(cfg: Config, w: World, k: WorkerId, picked: seq<RowId>): World
    requires Claimable(Messages(w), picked, w.now, cfg.limit)
  {
    var rows := LeasedRows(cfg, w, picked);
    var batch := seq(|picked|, i requires 0 <= i < |picked| && picked[i] in rows =>
      Claimed(picked[i], rows[picked[i]].message, w.now));
    w.(rows := rows, workers := w.workers[k := Worker(batch, None)])
  }

  ghost function ApplySend(w: World, k: WorkerId, gateway: Reply): World
    requires Dispatching(w, k)
  {
    var worker := w.workers[k];
    var id := worker.batch[0].row;
    var reply := SendReply(worker.batch[0].snapshot, gateway);
    var w' := if reply.Accepted? && id in w.rows then Accept(w, id, reply.externalId) else w;
    w'.(workers := w'.workers[k := worker.(reply := Some(reply))])
  }

  function Accept(w: World, id: RowId, given: string): World
    requires id in w.rows
  {
    SetRow(w, id, AcceptRow(w.rows[id], given)).(used := w.used + {given})
  }

  ghost predicate Initial(w: World) {
    w.rows == map[] && w.workers == map[] && w.used == {}
  }

  /** `ws` is the run that takes `steps` from the empty outbox. */
  ghost predicate Run(cfg: Config, ws: seq<World>, steps: seq<Step>) {
    && cfg.Valid() && |ws| == |steps| + 1 && Initial(ws[0])
    && forall i :: 0 <= i < |steps| ==> Enabled(cfg, ws[i], steps[i]) && ws[i + 1] == Apply(cfg, ws[i], steps[i])
  }

  // ---------------------------------------------------------------- invariant of every run

  /** While sent, the row holds the last saved id and keeps the one before; otherwise it keeps the last. */
  ghost predicate IdsFollowHistory(row: Row) {
    var m, n := row.message, |row.saved|;
    if m.status == Sent then
      && n >= 1 && m.externalId == Some(row.saved[n - 1])
      && m.retriedExternalId == (if n >= 2 then Some(row.saved[n - 2]) else None)
    else
      && m.externalId == None
      && m.retriedExternalId == (if n >= 1 then Some(row.saved[n - 1]) else None)
  }

  ghost predicate RowOk(cfg: Config, now: int, row: Row)
    requires cfg.Valid()
  {
    && WellFormed(row.message)
    && (row.message.status == Pending ==> row.message.nextAttemptAt <= now + cfg.Horizon())
    && (forall i :: 0 <= i < |row.saved| ==> row.saved[i] in row.returned)
    && row.sends != []
    && row.message.deliveryStatus == JoinAll(row.notices)
    && IdsFollowHistory(row)
  }

  ghost predicate WorkersOk(w: World) {
    && (forall k, i :: k in w.workers && 0 <= i < |w.workers[k].batch| ==> w.workers[k].batch[i].row in w.rows)
    && (forall k :: k in w.workers && w.workers[k].reply.Some? ==>
          && w.workers[k].batch != []
          && (w.workers[k].reply.value.Accepted? ==>
                w.workers[k].reply.value.externalId in w.rows[w.workers[k].batch[0].row].returned))
  }

  ghost predicate IdsBelongToOneRow(w: World) {
    && (forall id :: id in w.rows ==> w.rows[id].returned <= w.used)
    && (forall a, b :: a in w.rows && b in w.rows && a != b ==> w.rows[a].returned !! w.rows[b].returned)
  }

  ghost predicate Inv(cfg: Config, w: World)
    requires cfg.Valid()
  {
    && (forall id :: id in w.rows ==> RowOk(cfg, w.now, w.rows[id]))
    && WorkersOk(w)
    && IdsBelongToOneRow(w)
  }

  lemma {:induction false} DelayWithinHorizon(cfg: Config, attempts: int)
    requires cfg.Valid() && attempts >= 1
    ensures 0 < DelayAfter(cfg.schedule, attempts) <= cfg.Horizon()
  {
  }

  lemma SaveRowOk(cfg: Config, now: int, row: Row, reply: Reply)
    requires cfg.Valid() && RowOk(cfg, now, row)
    requires reply.Accepted? ==> reply.externalId in row.returned
    ensures RowOk(cfg, now, SaveRow(row, reply, now, cfg.schedule))
  {
    if row.message.status == Pending {
      assert row.message.deliveryStatus == None;
      DelayWithinHorizon(cfg, row.message.attempts + 1);
    }
  }

  lemma RequeueRowOk(cfg: Config, now: int, row: Row)
    requires cfg.Valid() && RowOk(cfg, now, row) && Retry(row.message, now).Success?
    ensures RowOk(cfg, now, RequeueRow(row, now))
  {
  }

  lemma NoticeRowOk(cfg: Config, now: int, row: Row, status: DeliveryStatus, error: Option<string>)
    requires cfg.Valid() && RowOk(cfg, now, row) && row.message.status == Sent
    ensures RowOk(cfg, now, NoticeRow(row, status, error, now))
  {
    NoticeRaisesToTheJoin(row.message, status, error, now);
    var notices := row.notices + [status];
    assert notices[..|notices| - 1] == row.notices;
  }

  /** Rewriting one row keeps the invariant when the row stays sound and remembers the ids it was given. */
  lemma SetRowKeepsInv(cfg: Config, w: World, id: RowId, row: Row)
    requires cfg.Valid() && Inv(cfg, w) && RowOk(cfg, w.now, row)
    requires id in w.rows ==> row.returned == w.rows[id].returned
    requires id !in w.rows ==> row.returned == {}
    ensures Inv(cfg, SetRow(w, id, row))
  {
  }

  lemma PopKeepsInv(cfg: Config, w: World, k: WorkerId)
    requires cfg.Valid() && Inv(cfg, w) && Dispatching(w, k)
    ensures Inv(cfg, w.(workers := w.workers[k := Pop(w.workers[k])]))
  {
    var w' := w.(workers := w.workers[k := Pop(w.workers[k])]);
    forall j, i | j in w'.workers && 0 <= i < |w'.workers[j].batch|
      ensures w'.workers[j].batch[i].row in w'.rows
    {
      if j == k {
        assert w'.workers[j].batch[i] == w.workers[k].batch[i + 1];
      }
    }
  }

  lemma RewriteKeepsInv(cfg: Config, w: World, rows: map<RowId, Row>)
    requires cfg.Valid() && Inv(cfg, w) && rows.Keys == w.rows.Keys
    requires forall id :: id in rows ==> RowOk(cfg, w.now, rows[id]) && rows[id].returned == w.rows[id].returned
    ensures Inv(cfg, w.(rows := rows))
  {
  }

  lemma SetWorkerKeepsInv(cfg: Config, w: World, k: WorkerId, worker: Worker)
    requires cfg.Valid() && Inv(cfg, w)
    requires forall i :: 0 <= i < |worker.batch| ==> worker.batch[i].row in w.rows
    requires worker.reply.Some? ==> worker.batch != []
    requires worker.reply.Some? && worker.reply.value.Accepted? ==>
      worker.reply.value.externalId in w.rows[worker.batch[0].row].returned
    ensures Inv(cfg, w.(workers := w.workers[k := worker]))
  {
  }

  lemma LeaseRowOk(cfg: Config, now: int, row: Row)
    requires cfg.Valid() && RowOk(cfg, now, row)
    ensures RowOk(cfg, now, row.(message := Leased(row.message, now + cfg.lease)))
  {
  }

  lemma LeasedRowsAreOk(cfg: Config, w: World, picked: seq<RowId>, id: RowId)
    requires cfg.Valid() && id in w.rows && RowOk(cfg, w.now, w.rows[id])
    ensures RowOk(cfg, w.now, LeasedRows(cfg, w, picked)[id])
    ensures LeasedRows(cfg, w, picked)[id].returned == w.rows[id].returned
  {
    LeaseRowOk(cfg, w.now, w.rows[id]);
  }

  lemma LeasingKeepsInv(cfg: Config, w: World, picked: seq<RowId>)
    requires cfg.Valid() && Inv(cfg, w)
    ensures Inv(cfg, w.(rows := LeasedRows(cfg, w, picked)))
  {
    var rows := LeasedRows(cfg, w, picked);
    forall id | id in rows
      ensures RowOk(cfg, w.now, rows[id]) && rows[id].returned == w.rows[id].returned
    {
      LeasedRowsAreOk(cfg, w, picked, id);
    }
    RewriteKeepsInv(cfg, w, rows);
  }

  lemma BatchesAreRows(cfg: Config, w: World, k: WorkerId, picked: seq<RowId>)
    requires Claimable(Messages(w), picked, w.now, cfg.limit)
    ensures var worker := ApplyClaim(cfg, w, k, picked).workers[k];
            worker.reply.None? && forall i :: 0 <= i < |worker.batch| ==> worker.batch[i].row in w.rows
  {
    forall i | 0 <= i < |picked| ensures picked[i] in w.rows {
      assert Due(Messages(w), picked[i], w.now);
    }
  }

  lemma ClaimKeepsInv(cfg: Config, w: World, k: WorkerId, picked: seq<RowId>)
    requires cfg.Valid() && Inv(cfg, w) && Enabled(cfg, w, Claim(k, picked))
    ensures Inv(cfg, ApplyClaim(cfg, w, k, picked))
  {
    LeasingKeepsInv(cfg, w, picked);
    BatchesAreRows(cfg, w, k, picked);
    SetWorkerKeepsInv(cfg, w.(rows := LeasedRows(cfg, w, picked)), k, ApplyClaim(cfg, w, k, picked).workers[k]);
  }

  lemma AcceptRowOk(cfg: Config, now: int, row: Row, id: string)
    requires cfg.Valid() && RowOk(cfg, now, row)
    ensures RowOk(cfg, now, AcceptRow(row, id))
  {
  }

  lemma AcceptKeepsIds(w: World, id: RowId, given: string)
    requires IdsBelongToOneRow(w) && id in w.rows && given !in w.used
    ensures IdsBelongToOneRow(Accept(w, id, given))
    ensures Accept(w, id, given).rows[id].returned == w.rows[id].returned + {given}
  {
    var w' := Accept(w, id, given);
    forall a, b | a in w'.rows && b in w'.rows && a != b
      ensures w'.rows[a].returned !! w'.rows[b].returned
    {
      assert given !in w.rows[a].returned && given !in w.rows[b].returned;
    }
  }

  lemma AcceptKeepsInv(cfg: Config, w: World, id: RowId, given: string)
    requires cfg.Valid() && Inv(cfg, w) && id in w.rows && given !in w.used
    ensures Inv(cfg, Accept(w, id, given))
    ensures given in Accept(w, id, given).rows[id].returned
  {
    AcceptRowOk(cfg, w.now, w.rows[id], given);
    AcceptKeepsIds(w, id, given);
    var w' := Accept(w, id, given);
    assert forall r :: r in w.rows && r != id ==> w'.rows[r] == w.rows[r];
    assert WorkersOk(w') by {
      assert forall r :: r in w.rows ==> w.rows[r].returned <= w'.rows[r].returned;
    }
  }

  lemma SendKeepsInv(cfg: Config, w: World, k: WorkerId, gateway: Reply)
    requires cfg.Valid() && Inv(cfg, w) && Enabled(cfg, w, Send(k, gateway))
    ensures Inv(cfg, ApplySend(w, k, gateway))
  {
    var worker := w.workers[k];
    var reply := SendReply(worker.batch[0].snapshot, gateway);
    var w' := if reply.Accepted? then Accept(w, worker.batch[0].row, gateway.externalId) else w;
    if reply.Accepted? {
      AcceptKeepsInv(cfg, w, worker.batch[0].row, gateway.externalId);
    }
    SetWorkerKeepsInv(cfg, w', k, worker.(reply := Some(reply)));
  }

  lemma SaveKeepsInv(cfg: Config, w: World, k: WorkerId)
    requires cfg.Valid() && Inv(cfg, w) && Enabled(cfg, w, Save(k))
    ensures Inv(cfg, Apply(cfg, w, Save(k)))
  {
    var id := w.workers[k].batch[0].row;
    SaveRowOk(cfg, w.now, w.rows[id], w.workers[k].reply.value);
    PopKeepsInv(cfg, w, k);
    SetRowKeepsInv(cfg, w.(workers := w.workers[k := Pop(w.workers[k])]), id,
                   SaveRow(w.rows[id], w.workers[k].reply.value, w.now, cfg.schedule));
  }

  lemma NoticeKeepsInv(cfg: Config, w: World, externalId: string, status: DeliveryStatus, error: Option<string>)
    requires cfg.Valid() && Inv(cfg, w)
    ensures Inv(cfg, Apply(cfg, w, Notice(externalId, status, error)))
  {
    var found := FindByExternalId(w, externalId);
    if found.Some? {
      var row := w.rows[found.value];
      NoticeRowOk(cfg, w.now, row, status, error);
      SetRowKeepsInv(cfg, w, found.value, NoticeRow(row, status, error, w.now));
    }
  }

  lemma InvalidateRowOk(cfg: Config, now: int, row: Row)
    requires cfg.Valid() && RowOk(cfg, now, row)
    ensures RowOk(cfg, now, row.(message := Invalidate(row.message)))
  {
  }

  lemma InvalidateKeepsInv(cfg: Config, w: World, ids: set<RowId>)
    requires cfg.Valid() && Inv(cfg, w)
    ensures Inv(cfg, Apply(cfg, w, InvalidateLinks(ids)))
  {
    var rows := Apply(cfg, w, InvalidateLinks(ids)).rows;
    forall id | id in rows
      ensures RowOk(cfg, w.now, rows[id]) && rows[id].returned == w.rows[id].returned
    {
      InvalidateRowOk(cfg, w.now, w.rows[id]);
    }
    RewriteKeepsInv(cfg, w, rows);
  }

  lemma StepKeepsInv(cfg: Config, w: World, s: Step)
    requires cfg.Valid() && Enabled(cfg, w, s) && Inv(cfg, w)
    ensures Inv(cfg, Apply(cfg, w, s))
  {
    match s
    case Tick(_) =>
    case Enqueue(id, payload, redact, maxAttempts) =>
      SetRowKeepsInv(cfg, w, id, NewRow(Create(payload, redact, maxAttempts, w.now).value));
    case Claim(k, picked) => ClaimKeepsInv(cfg, w, k, picked);
    case Send(k, gateway) => SendKeepsInv(cfg, w, k, gateway);
    case Save(k) => SaveKeepsInv(cfg, w, k);
    case SaveRaises(k) => PopKeepsInv(cfg, w, k);
    case Crash(_) =>
    case Requeue(id) =>
      RequeueRowOk(cfg, w.now, w.rows[id]);
      SetRowKeepsInv(cfg, w, id, RequeueRow(w.rows[id], w.now));
    case InvalidateLinks(ids) => InvalidateKeepsInv(cfg, w, ids);
    case Notice(externalId, status, error) => NoticeKeepsInv(cfg, w, externalId, status, error);
  }

  lemma {:induction false} EveryRunKeepsInv(cfg: Config, ws: seq<World>, steps: seq<Step>, i: nat)
    requires Run(cfg, ws, steps) && i < |ws|
    ensures Inv(cfg, ws[i])
  {
    if i > 0 {
      EveryRunKeepsInv(cfg, ws, steps, i - 1);
      StepKeepsInv(cfg, ws[i - 1], steps[i - 1]);
    }
  }
}
