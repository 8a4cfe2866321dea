/** Whether a running show may be extended: over the threshold, the inventory and each of its crews. */
module ExtensionAvailability {
  import opened Common
  import opened TimeWindows
  import opened AvailabilityServices

  type CrewId = nat

  /** Another show of one of the event's crews; the interval is the one required before that show. */
  datatype CrewShow = CrewShow(crew: CrewId, window: Window, interval: Option<int>)

  /** A request, the stock of its item and the reservations it competes with. */
  datatype ItemOccupancy = ItemOccupancy(stock: int, request: Reservation, others: seq<Reservation>)

  datatype Occupancy = Occupancy(windows: seq<Window>, inventory: seq<ItemOccupancy>, crews: seq<CrewShow>)

  datatype ExtensionError = NeedsApproval | NoInventory | CrewBusy | IntervalMissing | NoTimeToTravel

  function ShowsOf(rows: seq<CrewShow>, crew: CrewId): (shows: seq<CrewShow>)
    ensures forall i :: 0 <= i < |shows| ==> shows[i].crew == crew && shows[i] in rows
    ensures forall i :: 0 <= i < |rows| && rows[i].crew == crew ==> rows[i] in shows
  {
    if rows == [] then []
    else
      var before := ShowsOf(rows[..|rows| - 1], crew);
      if rows[|rows| - 1].crew == crew then before + [rows[|rows| - 1]] else before
  }

  /** The first of the earliest shows that start once `window` is over, or -1. */
  function NextShow(shows: seq<CrewShow>, window: Window): (n: int)
    ensures -1 <= n < |shows|
    ensures n == -1 ==> forall i :: 0 <= i < |shows| ==> shows[i].window.start < window.end
    ensures n >= 0 ==> shows[n].window.start >= window.end
    ensures n >= 0 ==> forall i :: 0 <= i < |shows| && shows[i].window.start >= window.end ==>
              && shows[n].window.start <= shows[i].window.start
              && (i < n ==> shows[n].window.start < shows[i].window.start)
  {
    if shows == [] then -1
    else
      var n := NextShow(shows[..|shows| - 1], window);
      var last := |shows| - 1;
      if shows[last].window.start >= window.end && (n == -1 || shows[last].window.start < shows[n].window.start)
      then last else n
  }

  /** Only overlaps and the nearest following show are inspected. */
  function CrewConflict(window: Window, shows: seq<CrewShow>): Option<ExtensionError> {
    if exists i :: 0 <= i < |shows| && shows[i].window.Overlaps(window) then Some(CrewBusy)
    else
      var n := NextShow(shows, window);
      if n == -1 then None
      else if shows[n].interval.None? then Some(IntervalMissing)
      else if !IsFeasible(window, shows[n].window, 0, shows[n].interval) then Some(NoTimeToTravel)
      else None
  }

  predicate Fits(item: ItemOccupancy) {
    Covers(item.stock, item.others, item.request)
  }

  /** The first conflict found; crews are taken in the order of their first row. */
  function ExtensionConflict(window: Window, o: Occupancy, threshold: nat): Option<ExtensionError> {
    if RequiresManualApproval(o.windows, window, threshold) then Some(NeedsApproval)
    else if !forall i :: 0 <= i < |o.inventory| ==> Fits(o.inventory[i]) then Some(NoInventory)
    else FirstCrewConflict(window, o.crews, o.crews)
  }

  function FirstCrewConflict(window: Window, pending: seq<CrewShow>, all: seq<CrewShow>): Option<ExtensionError> {
    if pending == [] then None
    else
      var conflict := CrewConflict(window, ShowsOf(all, pending[0].crew));
      if conflict.Some? then conflict else FirstCrewConflict(window, pending[1..], all)
  }

  lemma {:induction false} EveryCrewIsChecked(window: Window, pending: seq<CrewShow>, all: seq<CrewShow>)
    ensures FirstCrewConflict(window, pending, all) == None
            <==> forall i :: 0 <= i < |pending| ==> CrewConflict(window, ShowsOf(all, pending[i].crew)) == None
  {
    if pending != [] {
      EveryCrewIsChecked(window, pending[1..], all);
      assert forall i :: 1 <= i < |pending| ==> pending[i] == pending[1..][i - 1];
    }
  }

  // ---------------------------------------------------------------- the whole schedule

  /** `b` comes right after `a`: it starts once `a` is over and no show fits between them. */
  ghost predicate Consecutive(shows: seq<CrewShow>, a: int, b: int)
    requires 0 <= a < |shows| && 0 <= b < |shows|
  {
    && shows[a].window.end <= shows[b].window.start
    && forall k :: 0 <= k < |shows| ==>
         !(shows[a].window.end <= shows[k].window.start && shows[k].window.end <= shows[b].window.start)
  }

  ghost predicate AllValid(shows: seq<CrewShow>) {
    forall i :: 0 <= i < |shows| ==> shows[i].window.Valid()
  }

  ghost predicate Disjoint(shows: seq<CrewShow>) {
    forall i, j :: 0 <= i < j < |shows| ==> !shows[i].window.Overlaps(shows[j].window)
  }

  /** If `b` comes right after `a`, the gap between them covers the interval `b` requires. */
  ghost predicate Spaced(shows: seq<CrewShow>, a: int, b: int)
    requires 0 <= a < |shows| && 0 <= b < |shows|
  {
    Consecutive(shows, a, b) && shows[b].interval.Some? ==>
      shows[b].window.start - shows[a].window.end >= shows[b].interval.value * MINUTE
  }

  /** Disjoint shows, each far enough after the one before it. */
  ghost predicate WellSpaced(shows: seq<CrewShow>) {
    && AllValid(shows) && Disjoint(shows)
    && forall a, b :: 0 <= a < |shows| && 0 <= b < |shows| ==> Spaced(shows, a, b)
  }

  /** The schedule of one crew with the event itself first. */
  function Schedule(own: CrewShow, window: Window, others: seq<CrewShow>): seq<CrewShow> {
    [own.(window := window)] + others
  }

  /** The event takes a longer window and everything else stays. */
  ghost predicate Extends(own: CrewShow, w: Window) {
    own.window.Valid() && w.start == own.window.start && own.window.end <= w.end
  }

  ghost predicate ClearOf(w: Window, others: seq<CrewShow>) {
    forall k :: 0 <= k < |others| ==> others[k].window.Valid() && !others[k].window.Overlaps(w)
  }

  lemma ScheduleAt(own: CrewShow, w: Window, others: seq<CrewShow>)
    ensures var s := Schedule(own, w, others);
            |s| == |others| + 1 && s[0] == own.(window := w)
            && (forall k :: 0 < k < |s| ==> s[k] == others[k - 1])
            && (forall k :: 0 <= k < |others| ==> others[k] == s[k + 1])
  {
  }

  /** When the extended show overlaps nothing, no other pair of shows becomes consecutive, and the event
      keeps its predecessor. */
  lemma OtherPairsWereConsecutive(own: CrewShow, w: Window, others: seq<CrewShow>, i: int, j: int)
    requires Extends(own, w) && ClearOf(w, others)
    requires 0 < i <= |others| && 0 <= j <= |others|
    requires Consecutive(Schedule(own, w, others), i, j)
    ensures Consecutive(Schedule(own, own.window, others), i, j)
  {
    var now, before := Schedule(own, w, others), Schedule(own, own.window, others);
    ScheduleAt(own, w, others);
    ScheduleAt(own, own.window, others);
    forall k | 0 <= k < |before|
      ensures !(before[i].window.end <= before[k].window.start && before[k].window.end <= before[j].window.start)
    {
      assert !(now[i].window.end <= now[k].window.start && now[k].window.end <= now[j].window.start);
    }
  }

  /** A show that follows the window is found, or one at least as early. */
  lemma NextShowIsNoLater(own: CrewShow, w: Window, others: seq<CrewShow>, j: int)
    requires w.Valid() && 0 <= j <= |others| && Consecutive(Schedule(own, w, others), 0, j)
    ensures j > 0 && NextShow(others, w) >= 0
    ensures others[NextShow(others, w)].window.start <= others[j - 1].window.start
  {
    ScheduleAt(own, w, others);
    var now := Schedule(own, w, others);
    assert now[0].window.end <= now[j].window.start;
  }

  /** Nothing between the window and the show right after it ends before that show starts. */
  lemma NothingEndsBefore(own: CrewShow, w: Window, others: seq<CrewShow>, j: int, n: nat)
    requires 0 < j <= |others| && n < |others| && Consecutive(Schedule(own, w, others), 0, j)
    requires w.end <= others[n].window.start
    ensures others[j - 1].window.start < others[n].window.end
  {
    ScheduleAt(own, w, others);
    var now := Schedule(own, w, others);
    assert !(now[0].window.end <= now[n + 1].window.start && now[n + 1].window.end <= now[j].window.start);
  }

  /** The show right after the extended event is the one the check looked at. */
  lemma NearestIsConsecutive(own: CrewShow, w: Window, others: seq<CrewShow>, j: int)
    requires w.Valid() && AllValid(others) && Disjoint(others)
    requires 0 <= j <= |others| && Consecutive(Schedule(own, w, others), 0, j)
    ensures j > 0 && NextShow(others, w) == j - 1
  {
    NextShowIsNoLater(own, w, others, j);
    var n := NextShow(others, w);
    NothingEndsBefore(own, w, others, j, n);
    assert n != j - 1 ==> others[n].window.Overlaps(others[j - 1].window);
  }

  lemma AcceptedIsClear(w: Window, others: seq<CrewShow>)
    requires AllValid(others) && CrewConflict(w, others) == None
    ensures ClearOf(w, others)
  {
  }

  lemma ClearKeepsDisjoint(own: CrewShow, w: Window, others: seq<CrewShow>)
    requires AllValid(others) && Disjoint(others) && Extends(own, w) && ClearOf(w, others)
    ensures AllValid(Schedule(own, w, others)) && Disjoint(Schedule(own, w, others))
  {
    ScheduleAt(own, w, others);
  }

  lemma OthersOf(own: CrewShow, w: Window, others: seq<CrewShow>)
    requires AllValid(Schedule(own, w, others)) && Disjoint(Schedule(own, w, others))
    ensures w.Valid() && AllValid(others) && Disjoint(others) && ClearOf(w, others)
  {
    var s := Schedule(own, w, others);
    ScheduleAt(own, w, others);
    assert s[0].window.Valid();
    forall k | 0 <= k < |others|
      ensures others[k].window.Valid() && !others[k].window.Overlaps(w)
    {
      assert s[k + 1].window.Valid() && !s[0].window.Overlaps(s[k + 1].window);
    }
    forall k, l | 0 <= k < l < |others|
      ensures !others[k].window.Overlaps(others[l].window)
    {
      assert !s[k + 1].window.Overlaps(s[l + 1].window);
    }
  }

  lemma OtherPairStaysSpaced(own: CrewShow, w: Window, others: seq<CrewShow>, a: int, b: int)
    requires Extends(own, w) && ClearOf(w, others) && 0 < a <= |others| && 0 <= b <= |others|
    requires Spaced(Schedule(own, own.window, others), a, b)
    ensures Spaced(Schedule(own, w, others), a, b)
  {
    if Consecutive(Schedule(own, w, others), a, b) {
      OtherPairsWereConsecutive(own, w, others, a, b);
    }
  }

  lemma NearestIsSpaced(own: CrewShow, w: Window, others: seq<CrewShow>, b: int)
    requires w.Valid() && AllValid(others) && Disjoint(others) && 0 <= b <= |others|
    requires CrewConflict(w, others) == None
    ensures Spaced(Schedule(own, w, others), 0, b)
  {
    if Consecutive(Schedule(own, w, others), 0, b) {
      NearestIsConsecutive(own, w, others, b);
    }
  }

  lemma AcceptedKeepsSpacing(own: CrewShow, w: Window, others: seq<CrewShow>)
    requires WellSpaced(Schedule(own, own.window, others)) && Extends(own, w)
    requires CrewConflict(w, others) == None
    ensures WellSpaced(Schedule(own, w, others))
  {
    OthersOf(own, own.window, others);
    AcceptedIsClear(w, others);
    ClearKeepsDisjoint(own, w, others);
    forall a, b | 0 <= a <= |others| && 0 <= b <= |others|
      ensures Spaced(Schedule(own, w, others), a, b)
    {
      if a > 0 {
        OtherPairStaysSpaced(own, w, others, a, b);
      } else {
        NearestIsSpaced(own, w, others, b);
      }
    }
  }

  /** The nearest following show comes right after the event. */
  lemma NearestComesNext(own: CrewShow, w: Window, others: seq<CrewShow>)
    requires w.Valid() && AllValid(others) && NextShow(others, w) >= 0
    ensures Consecutive(Schedule(own, w, others), 0, NextShow(others, w) + 1)
  {
    ScheduleAt(own, w, others);
  }

  lemma SpacedMeansAccepted(own: CrewShow, w: Window, others: seq<CrewShow>)
    requires WellSpaced(Schedule(own, w, others))
    requires NextShow(others, w) >= 0 ==>
      var interval := others[NextShow(others, w)].interval; interval.Some? && interval.value >= 0
    ensures CrewConflict(w, others) == None
  {
    OthersOf(own, w, others);
    var n := NextShow(others, w);
    if n >= 0 {
      NearestComesNext(own, w, others);
      assert Spaced(Schedule(own, w, others), 0, n + 1);
    }
  }

  /** A crew's check passes exactly when its whole schedule stays disjoint and well spaced after the
      extension and the nearest following show has a usable interval: inspecting overlaps and that one
      show is enough. */
  lemma CrewCheckDecidesTheSchedule(own: CrewShow, w: Window, others: seq<CrewShow>)
    requires WellSpaced(Schedule(own, own.window, others)) && Extends(own, w)
    ensures CrewConflict(w, others) == None <==>
              && WellSpaced(Schedule(own, w, others))
              && (NextShow(others, w) >= 0 ==>
                    var interval := others[NextShow(others, w)].interval; interval.Some? && interval.value >= 0)
  {
    if CrewConflict(w, others) == None {
      AcceptedKeepsSpacing(own, w, others);
    } else if NextShow(others, w) < 0
              || (others[NextShow(others, w)].interval.Some? && others[NextShow(others, w)].interval.value >= 0) {
      if WellSpaced(Schedule(own, w, others)) {
        SpacedMeansAccepted(own, w, others);
      }
    }
  }

  /** An accepted extension preserves the schedule of every crew of the event. */
  lemma AcceptedExtensionKeepsEverySchedule(own: CrewShow, w: Window, o: Occupancy, threshold: nat, crew: CrewId)
    requires WellSpaced(Schedule(own, own.window, ShowsOf(o.crews, crew))) && Extends(own, w)
    requires ExtensionConflict(w, o, threshold) == None
    ensures WellSpaced(Schedule(own, w, ShowsOf(o.crews, crew)))
  {
    var others := ShowsOf(o.crews, crew);
    EveryCrewIsChecked(w, o.crews, o.crews);
    if others != [] {
      assert others[0] in o.crews && others[0].crew == crew;
    }
    AcceptedKeepsSpacing(own, w, others);
  }

  // ---------------------------------------------------------------- why an extension is refused

  /** Why a crew cannot stay: it is elsewhere at some instant of the longer window; or the nearest following show has no
      interval on record; or fewer seconds than that interval are left before it. */
  lemma CrewsAreRefusedFor(w: Window, shows: seq<CrewShow>)
    requires w.Valid() && AllValid(shows)
    ensures CrewConflict(w, shows) == Some(CrewBusy) <==>
              exists i :: 0 <= i < |shows| && ShareAnInstant(shows[i].window, w)
    ensures var n := NextShow(shows, w);
            var free := forall i :: 0 <= i < |shows| ==> !ShareAnInstant(shows[i].window, w);
            && (CrewConflict(w, shows) == Some(IntervalMissing) <==> free && n >= 0 && shows[n].interval.None?)
            && (CrewConflict(w, shows) == Some(NoTimeToTravel) <==>
                  free && n >= 0 && shows[n].interval.Some?
                  && (shows[n].interval.value < 0
                      || shows[n].window.start - w.end < shows[n].interval.value * MINUTE))
  {
    forall i | 0 <= i < |shows|
      ensures shows[i].window.Overlaps(w) <==> ShareAnInstant(shows[i].window, w)
    {
      OverlapMeansSharedInstant(shows[i].window, w);
    }
  }

  /** The stock covers what the request wants beside the reservations that share an instant with it. */
  ghost predicate Stocked(item: ItemOccupancy) {
    UnitsSharing(item.request.item, item.others, item.request.window) + item.request.quantity <= item.stock
  }

  ghost predicate WellFormed(o: Occupancy) {
    && (forall w :: w in o.windows ==> w.Valid())
    && (forall i :: 0 <= i < |o.inventory| ==>
          && o.inventory[i].request.window.Valid() && o.inventory[i].request.quantity > 0
          && ValidWindows(o.inventory[i].others))
  }

  /** An extension is accepted exactly when the shows at its instants are within the threshold, every item is stocked
      and no crew is in conflict; the threshold is reported before the inventory and the inventory before the crews. */
  lemma ExtendsExactlyWhen(w: Window, o: Occupancy, threshold: nat)
    requires w.Valid() && WellFormed(o)
    ensures var crowded := 1 + |Simultaneous(o.windows, w)| > threshold;
            var stocked := forall i :: 0 <= i < |o.inventory| ==> Stocked(o.inventory[i]);
            var manned := forall i :: 0 <= i < |o.crews| ==> CrewConflict(w, ShowsOf(o.crews, o.crews[i].crew)) == None;
            && (ExtensionConflict(w, o, threshold) == None <==> !crowded && stocked && manned)
            && (crowded ==> ExtensionConflict(w, o, threshold) == Some(NeedsApproval))
            && (!crowded && !stocked ==> ExtensionConflict(w, o, threshold) == Some(NoInventory))
            && (!crowded && stocked ==> ExtensionConflict(w, o, threshold) == FirstCrewConflict(w, o.crews, o.crews))
  {
    CountsThoseThatShareAnInstant(o.windows, w);
    forall i | 0 <= i < |o.inventory|
      ensures Fits(o.inventory[i]) <==> Stocked(o.inventory[i])
    {
      var item := o.inventory[i];
      ReservedMeansSharing(item.request.item, item.others, item.request.window);
    }
    EveryCrewIsChecked(w, o.crews, o.crews);
  }
}
