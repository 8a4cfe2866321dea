/**
 * The money of an event: it starts once services and mobility are paid, each extension is collected as it is
 * agreed, and it is settled against the ledger of extensions. Amounts are integer cents.
 */
module EventMoney {
  import opened Common
  import opened TimeWindows
  import ExtensionAvailability

  const MAX_AMOUNT := 9999999999
  const MAX_MINUTES := 2147483647

  datatype EventError = InvalidState | Invalid | BalancePending | PaymentMismatch | ResourceConflict | NotSaved

  datatype Event = Event(
    status: EventStatus,
    startedAt: Option<int>,
    finalTotal: int,
    advance: int,
    preShow: int,
    extraHours: int,
    legacyExtra: int,
    extraMinutes: int)

  predicate ValidMinutes(minutes: int, allowZero: bool) {
    (if allowZero then 0 else 1) <= minutes <= MAX_MINUTES
  }

  predicate ValidAmount(amount: int, allowZero: bool) {
    (if allowZero then 0 else 1) <= amount <= MAX_AMOUNT
  }

  /** What the constructor demands of the amounts. */
  predicate Valid(e: Event) {
    && ValidMinutes(e.extraMinutes, true)
    && e.finalTotal >= 0 && e.advance >= 0 && e.preShow >= 0 && e.extraHours >= 0 && e.legacyExtra >= 0
  }

  predicate Operating(e: Event) {
    e.status == InProgress || e.status == Extended
  }

  function Start(e: Event, verifiedPreShow: int, at: int): Result<Event, EventError> {
    if !(e.status == Scheduled || e.status == AwaitingBalance) || e.startedAt.Some? then Failure(InvalidState)
    else if verifiedPreShow < 0 then Failure(Invalid)
    else if e.advance + verifiedPreShow < e.finalTotal then Failure(BalancePending)
    else Success(e.(preShow := verifiedPreShow, status := InProgress, startedAt := Some(at)))
  }

  function Extend(e: Event, minutes: int, rate: int): Result<Event, EventError> {
    if !Operating(e) then Failure(InvalidState)
    else if !ValidMinutes(minutes, false) || !ValidAmount(rate, false) then Failure(Invalid)
    else if !ValidMinutes(e.extraMinutes + minutes, false) || !ValidAmount(e.extraHours + rate, false)
            || !ValidAmount(e.finalTotal + rate, false) then Failure(Invalid)
    else Success(e.(extraMinutes := e.extraMinutes + minutes, extraHours := e.extraHours + rate,
                    finalTotal := e.finalTotal + rate, status := Extended))
  }

  function Settle(e: Event, verifiedAmount: int, verifiedMinutes: int): Result<Event, EventError> {
    if !Operating(e) then Failure(InvalidState)
    else if !ValidAmount(verifiedAmount, true) || !ValidMinutes(verifiedMinutes, true) then Failure(Invalid)
    else if e.legacyExtra + verifiedAmount != e.extraHours || verifiedMinutes != e.extraMinutes
        then Failure(PaymentMismatch)
    else if GrossRevenue(e, verifiedAmount) < e.finalTotal then Failure(BalancePending)
    else Success(e.(status := Settled))
  }

  function PendingBalance(e: Event): int {
    Max(0, e.finalTotal - e.advance - e.preShow - e.extraHours)
  }

  /** The revenue the settlement snapshot records. */
  function GrossRevenue(e: Event, verifiedAmount: int): int {
    e.advance + e.preShow + e.legacyExtra + verifiedAmount
  }

  // ---------------------------------------------------------------- the ledger

  /** One collected extension; the file is the evidence of its payment. */
  datatype Extension = Extension(minutes: int, amount: int, file: nat)

  function Amounts(ledger: seq<Extension>): int {
    if ledger == [] then 0 else Amounts(ledger[..|ledger| - 1]) + ledger[|ledger| - 1].amount
  }

  function Minutes(ledger: seq<Extension>): int {
    if ledger == [] then 0 else Minutes(ledger[..|ledger| - 1]) + ledger[|ledger| - 1].minutes
  }

  /** An event begun by `Start` followed by the extensions of the ledger, each of them accepted. */
  ghost predicate Begun(first: Event, e: Event, ledger: seq<Extension>)
    decreases |ledger|
  {
    if ledger == [] then
      exists scheduled, paid, at :: Valid(scheduled) && Start(scheduled, paid, at) == Success(first) && e == first
    else
      var x := ledger[|ledger| - 1];
      exists before :: Begun(first, before, ledger[..|ledger| - 1]) && Extend(before, x.minutes, x.amount) == Success(e)
  }

  /** An event starts exactly once, before its show, when the balance verified by then leaves nothing to pay; it then
      owes nothing and only the balance, the status and the instant have changed. */
  lemma StartsExactlyWhenPaid(e: Event, verifiedPreShow: int, at: int)
    ensures Start(e, verifiedPreShow, at).Success? <==>
              && e.status in {Scheduled, AwaitingBalance} && e.startedAt.None?
              && verifiedPreShow >= 0 && e.finalTotal <= e.advance + verifiedPreShow
    ensures Start(e, verifiedPreShow, at).Success? ==>
              Start(e, verifiedPreShow, at).value ==
              Event(InProgress, Some(at), e.finalTotal, e.advance, verifiedPreShow, e.extraHours, e.legacyExtra,
                    e.extraMinutes)
  {
  }

  /** After any extensions, each total is the starting one plus the ledger. */
  lemma {:induction false} TotalsFollowTheLedger(first: Event, e: Event, ledger: seq<Extension>)
    requires Begun(first, e, ledger)
    ensures Operating(e) && Valid(first) && first.finalTotal <= first.advance + first.preShow
    ensures e.advance == first.advance && e.preShow == first.preShow && e.legacyExtra == first.legacyExtra
    ensures e.finalTotal == first.finalTotal + Amounts(ledger)
    ensures e.extraHours == first.extraHours + Amounts(ledger)
    ensures e.extraMinutes == first.extraMinutes + Minutes(ledger)
    ensures 0 <= Amounts(ledger) && 0 <= Minutes(ledger) <= MAX_MINUTES
    ensures first.extraHours >= 0 && (ledger != [] ==> e.extraHours <= MAX_AMOUNT)
    ensures 0 <= e.finalTotal && 0 <= e.advance && 0 <= e.preShow && 0 <= e.legacyExtra && 0 <= e.extraMinutes
    ensures e.startedAt == first.startedAt && first.startedAt.Some? && first.status == InProgress
    ensures e.status == if ledger == [] then InProgress else Extended
    decreases |ledger|
  {
    if ledger != [] {
      var x := ledger[|ledger| - 1];
      var before :| Begun(first, before, ledger[..|ledger| - 1]) && Extend(before, x.minutes, x.amount) == Success(e);
      TotalsFollowTheLedger(first, before, ledger[..|ledger| - 1]);
    }
  }

  /** Once begun, an event can be extended by any positive time for any positive amount, exactly until its minutes, its
      extra hours or its total no longer fit where they are stored. */
  lemma ExtendsExactlyWhenItFits(first: Event, e: Event, ledger: seq<Extension>, minutes: int, rate: int)
    requires Begun(first, e, ledger)
    ensures Extend(e, minutes, rate).Success? <==>
              && minutes >= 1 && rate >= 1 && first.extraMinutes + Minutes(ledger) + minutes <= MAX_MINUTES
              && first.extraHours + Amounts(ledger) + rate <= MAX_AMOUNT
              && first.finalTotal + Amounts(ledger) + rate <= MAX_AMOUNT
  {
    TotalsFollowTheLedger(first, e, ledger);
  }

  /** Events only move forward: one not under way is neither extended nor settled, and one that started does not start
      again; that is checked before anything else. */
  lemma EventsOnlyMoveForward(e: Event, paid: int, at: int, minutes: int, rate: int)
    ensures e.status !in {InProgress, Extended} ==>
              Extend(e, minutes, rate) == Failure(InvalidState) && Settle(e, rate, minutes) == Failure(InvalidState)
    ensures e.startedAt.Some? || e.status !in {Scheduled, AwaitingBalance} ==>
              Start(e, paid, at) == Failure(InvalidState)
  {
  }

  /** Any event under way is settled exactly on its own extra minutes, and on the extra hours that are not legacy, when
      all that was paid covers its total; nothing but the status changes. */
  lemma SettlesExactlyWhen(e: Event, amount: int, minutes: int)
    ensures Settle(e, amount, minutes).Success? <==>
              && e.status in {InProgress, Extended}
              && minutes == e.extraMinutes && amount == e.extraHours - e.legacyExtra
              && 0 <= minutes <= MAX_MINUTES && 0 <= amount <= MAX_AMOUNT
              && e.finalTotal <= e.advance + e.preShow + e.extraHours
    ensures Settle(e, amount, minutes).Success? ==>
              Settle(e, amount, minutes).value ==
              Event(Settled, e.startedAt, e.finalTotal, e.advance, e.preShow, e.extraHours, e.legacyExtra,
                    e.extraMinutes)
  {
  }

  /** While it runs, an event begun with the balance paid owes nothing, whatever is extended; and it can be
      settled on the totals of its ledger exactly when it began with no extra minutes and with its extra
      hours equal to the legacy amount. The snapshot then covers the final total. */
  lemma SettlesExactlyOnItsLedger(first: Event, e: Event, ledger: seq<Extension>)
    requires Begun(first, e, ledger)
    ensures PendingBalance(e) == 0
    ensures Settle(e, Amounts(ledger), Minutes(ledger)).Success?
            <==> first.extraHours == first.legacyExtra && first.extraMinutes == 0
    ensures first.extraHours == first.legacyExtra ==>
              && e.extraHours == e.legacyExtra + Amounts(ledger)
              && GrossRevenue(e, Amounts(ledger)) >= e.finalTotal
  {
    TotalsFollowTheLedger(first, e, ledger);
  }

  /** An accepted extension recorded in the ledger keeps the event begun. */
  lemma AcceptedExtensionContinues(first: Event, e: Event, ledger: seq<Extension>, x: Extension, extended: Event)
    requires Begun(first, e, ledger) && Extend(e, x.minutes, x.amount) == Success(extended)
    ensures Begun(first, extended, ledger + [x])
  {
    var longer := ledger + [x];
    assert longer[..|longer| - 1] == ledger && longer[|longer| - 1] == x;
    assert Begun(first, e, longer[..|longer| - 1]) && Extend(e, x.minutes, x.amount) == Success(extended);
  }

  // ---------------------------------------------------------------- the aggregate in place

  class EventAggregate {
    var status: EventStatus
    var startedAt: Option<int>
    var finalTotal: int
    const advance: int
    var preShow: int
    var extraHours: int
    const legacyExtra: int
    var extraMinutes: int

    function Value(): Event
      reads this
    {
      Event(status, startedAt, finalTotal, advance, preShow, extraHours, legacyExtra, extraMinutes)
    }

    constructor (e: Event)
      ensures Value() == e
    {
      status, startedAt, finalTotal, advance := e.status, e.startedAt, e.finalTotal, e.advance;
      preShow, extraHours, legacyExtra, extraMinutes := e.preShow, e.extraHours, e.legacyExtra, e.extraMinutes;
    }

    /** All guards come before any change. */
    method RunStart(verifiedPreShow: int, at: int) returns (error: Option<EventError>)
      modifies this
      ensures match Start(old(Value()), verifiedPreShow, at)
              case Success(e) => error == None && Value() == e
              case Failure(f) => error == Some(f) && Value() == old(Value())
    {
      if (status != Scheduled && status != AwaitingBalance) || startedAt.Some? { return Some(InvalidState); }
      if verifiedPreShow < 0 { return Some(Invalid); }
      if advance + verifiedPreShow < finalTotal { return Some(BalancePending); }
      preShow := verifiedPreShow;
      status := InProgress;
      startedAt := Some(at);
      error := None;
    }

    method RunExtend(minutes: int, rate: int) returns (error: Option<EventError>)
      modifies this
      ensures match Extend(old(Value()), minutes, rate)
              case Success(e) => error == None && Value() == e
              case Failure(f) => error == Some(f) && Value() == old(Value())
    {
      if status != InProgress && status != Extended { return Some(InvalidState); }
      if !ValidMinutes(minutes, false) || !ValidAmount(rate, false) { return Some(Invalid); }
      var total, extra, final := extraMinutes + minutes, extraHours + rate, finalTotal + rate;
      if !ValidMinutes(total, false) { return Some(Invalid); }
      if !ValidAmount(extra, false) || !ValidAmount(final, false) { return Some(Invalid); }
      extraMinutes := total;
      extraHours := extra;
      finalTotal := final;
      status := Extended;
      error := None;
    }

    method RunSettle(verifiedAmount: int, verifiedMinutes: int) returns (error: Option<EventError>)
      modifies this
      ensures match Settle(old(Value()), verifiedAmount, verifiedMinutes)
              case Success(e) => error == None && Value() == e
              case Failure(f) => error == Some(f) && Value() == old(Value())
    {
      if status != InProgress && status != Extended { return Some(InvalidState); }
      if !ValidAmount(verifiedAmount, true) || !ValidMinutes(verifiedMinutes, true) { return Some(Invalid); }
      if legacyExtra + verifiedAmount != extraHours || verifiedMinutes != extraMinutes { return Some(PaymentMismatch); }
      if advance + preShow + legacyExtra + verifiedAmount < finalTotal { return Some(BalancePending); }
      status := Settled;
      error := None;
    }
  }

  // ---------------------------------------------------------------- extending and settling, stored

  /** How saving an extension ends: committed, refused, or reported as failed after the commit took effect. */
  datatype SaveOutcome = Saved | Refused | CommittedButRaised

  /** What is found around the event, and how the calls around an extension end. */
  datatype Surroundings = Surroundings(
    occupancy: ExtensionAvailability.Occupancy, threshold: nat, save: SaveOutcome,
    rollbackWorks: bool, queryWorks: bool, deleteWorks: bool)

  /** The event extended to this many extra minutes does not fit its surroundings. */
  predicate Conflicts(scheduled: Window, extraMinutes: int, calls: Surroundings) {
    ExtensionAvailability.ExtensionConflict(scheduled.Extended(extraMinutes), calls.occupancy, calls.threshold).Some?
  }

  class EventDesk {
    const scheduled: Window
    var row: Event
    var ledger: seq<Extension>
    var files: set<nat>
    var revenue: Option<int>

    /** Every recorded extension has its evidence. */
    ghost predicate EvidenceKept()
      reads this
    {
      forall i :: 0 <= i < |ledger| ==> ledger[i].file in files
    }

    constructor (scheduled: Window, row: Event)
      ensures this.scheduled == scheduled && this.row == row
      ensures ledger == [] && files == {} && revenue == None && EvidenceKept()
    {
      this.scheduled, this.row := scheduled, row;
      ledger, files, revenue := [], {}, None;
    }

    /** Registers an extension whose evidence is stored as the new file `file`. The event and its ledger move
        together or not at all, and the evidence stays exactly while its payment may be recorded. */
    method RegisterExtension(minutes: int, rate: int, file: nat, calls: Surroundings)
      returns (error: Option<EventError>)
      requires file !in files && EvidenceKept()
      requires forall i :: 0 <= i < |ledger| ==> ledger[i].file != file
      modifies this
      ensures EvidenceKept() && revenue == old(revenue)
      ensures error == None <==> Extend(old(row), minutes, rate).Success? && calls.save == Saved
                                 && !Conflicts(scheduled, old(row).extraMinutes + minutes, calls)
      ensures row != old(row) ==> !Conflicts(scheduled, row.extraMinutes, calls)
      ensures (row == old(row) && ledger == old(ledger))
              || (Extend(old(row), minutes, rate) == Success(row)
                  && ledger == old(ledger) + [Extension(minutes, rate, file)])
      ensures Extend(old(row), minutes, rate).Failure? ==> error == Some(Extend(old(row), minutes, rate).error)
      ensures error == Some(ResourceConflict) <==> Extend(old(row), minutes, rate).Success?
                                                   && Conflicts(scheduled, old(row).extraMinutes + minutes, calls)
      ensures error == Some(NotSaved) <==> Extend(old(row), minutes, rate).Success? && calls.save != Saved
                                           && !Conflicts(scheduled, old(row).extraMinutes + minutes, calls)
      ensures error == None || calls.save == CommittedButRaised || row == old(row)
      ensures error == None ==> row != old(row) && file in files
      ensures files == old(files) || files == old(files) + {file}
      ensures error.Some? && row == old(row) && calls.rollbackWorks && calls.queryWorks && calls.deleteWorks ==>
          files == old(files)
    {
      files := files + {file};
      var persistAttempted := false;
      var event := new EventAggregate(row);
      error := event.RunExtend(minutes, rate);
      if error.None? && Conflicts(scheduled, event.extraMinutes, calls) {
        error := Some(ResourceConflict);
      }
      if error.None? {
        persistAttempted := true;
        if calls.save != Refused {
          row, ledger := event.Value(), ledger + [Extension(minutes, rate, file)];
        }
        if calls.save != Saved {
          error := Some(NotSaved);
        }
      }
      if error.Some? {
        var recorded := exists i :: 0 <= i < |ledger| && ledger[i].file == file;
        if !persistAttempted || (calls.rollbackWorks && calls.queryWorks && !recorded) {
          if calls.deleteWorks {
            files := files - {file};
          }
        }
      }
    }

    /** Settles on the totals of the ledger and records the revenue; on any error nothing changes. */
    method SettleOnLedger() returns (error: Option<EventError>)
      modifies this
      ensures ledger == old(ledger) && files == old(files)
      ensures match Settle(old(row), Amounts(ledger), Minutes(ledger))
              case Success(e) => error == None && row == e && revenue == Some(GrossRevenue(e, Amounts(ledger)))
              case Failure(f) => error == Some(f) && row == old(row) && revenue == old(revenue)
    {
      var event := new EventAggregate(row);
      if !Operating(row) { return Some(InvalidState); }
      var amount, minutes := Amounts(ledger), Minutes(ledger);
      error := event.RunSettle(amount, minutes);
      if error.Some? { return; }
      row, revenue := event.Value(), Some(event.advance + event.preShow + event.legacyExtra + amount);
    }
  }
}
