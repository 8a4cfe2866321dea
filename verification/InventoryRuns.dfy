/**
 * Every run of bookings (approved overbookings included), extensions, cancellations and stock changes. Bookings and
 * extensions act under the availability lock; a stock change reads its guard and writes later, without the lock.
 */
module InventoryRuns {
  import opened Common
  import opened TimeWindows
  import opened AvailabilityServices

  datatype StockChange = StockChange(item: ItemId, total: int)

  /** `held` are the active reservations, in the local time `now` shows. The guard of a stock change reads another
      clock, `ahead` of that one: reservations are stored in local time and the guard compares them with UTC.
      `granted` are the stock changes that passed their guard and have not been written. */
  datatype Warehouse = Warehouse(
    stock: map<ItemId, int>,
    held: seq<Reservation>,
    granted: set<StockChange>,
    now: int,
    ahead: int)

  datatype Step =
    | Tick(seconds: nat)
    | AddItem(item: ItemId, total: int)
    | GuardStock(change: StockChange)
    | WriteStock(change: StockChange)
    | DropStock(change: StockChange)
    | Book(event: EventId, requirements: seq<Requirement>, window: Window)
    | Extend(event: EventId, minutes: nat)
    | Cancel(event: EventId)

  /** What the guard of a stock change sums: active units whose reservation has not ended. */
  function FutureReserved(item: ItemId, rs: seq<Reservation>, now: int): int {
    if rs == [] then 0
    else
      var r := rs[|rs| - 1];
      FutureReserved(item, rs[..|rs| - 1], now) + (if r.item == item && r.window.end > now then r.quantity else 0)
  }

  function Wants(event: EventId, requirements: seq<Requirement>, window: Window): seq<Reservation> {
    seq(|requirements|, i requires 0 <= i < |requirements| => Wanted(event, requirements[i], window))
  }

  function Prolong(r: Reservation, event: EventId, minutes: nat): Reservation {
    if r.event == event then r.(window := r.window.Extended(minutes)) else r
  }

  function Prolonged(rs: seq<Reservation>, event: EventId, minutes: nat): seq<Reservation> {
    seq(|rs|, i requires 0 <= i < |rs| => Prolong(rs[i], event, minutes))
  }

  function Without(rs: seq<Reservation>, event: EventId): seq<Reservation> {
    if rs == [] then []
    else
      var before := Without(rs[..|rs| - 1], event);
      if rs[|rs| - 1].event == event then before else before + [rs[|rs| - 1]]
  }

  /** All reservations but the one at `p`: what the extended reservation at `p` is checked against. */
  function Others(rs: seq<Reservation>, p: nat): seq<Reservation>
    requires p < |rs|
  {
    rs[..p] + rs[p + 1..]
  }

  /** A package requires an item at most once, with its current stock; every check must pass. An approved
      overbooking may exceed the show threshold, never the stock. */
  ghost predicate Enabled(w: Warehouse, s: Step) {
    match s
    case Tick(_) => true
    case AddItem(item, total) => item !in w.stock && total >= 0
    case GuardStock(change) =>
      && change.item in w.stock && change.total >= 0
      && change.total >= FutureReserved(change.item, w.held, w.now + w.ahead)
    case WriteStock(change) => change in w.granted
    case DropStock(_) => true
    case Book(event, requirements, window) =>
      && window.Valid()
      && DistinctItems(requirements)
      && (forall i :: 0 <= i < |requirements| ==>
            && requirements[i].quantity > 0 && requirements[i].item in w.stock
            && requirements[i].stock == w.stock[requirements[i].item])
      && Shortages(requirements, w.held, window) == []
    case Extend(event, minutes) =>
      forall p :: 0 <= p < |w.held| && w.held[p].event == event && w.held[p].item in w.stock ==>
        Covers(w.stock[w.held[p].item], Others(Prolonged(w.held, event, minutes), p),
               Prolong(w.held[p], event, minutes))
    case Cancel(_) => true
  }

  function Apply(w: Warehouse, s: Step): Warehouse {
    match s
    case Tick(seconds) => w.(now := w.now + seconds)
    case AddItem(item, total) => w.(stock := w.stock[item := total])
    case GuardStock(change) => w.(granted := w.granted + {change})
    case WriteStock(change) =>
      w.(stock := w.stock[change.item := change.total], granted := w.granted - {change})
    case DropStock(change) => w.(granted := w.granted - {change})
    case Book(event, requirements, window) => w.(held := w.held + Wants(event, requirements, window))
    case Extend(event, minutes) => w.(held := Prolonged(w.held, event, minutes))
    case Cancel(event) => w.(held := Without(w.held, event))
  }

  ghost predicate Run(ws: seq<Warehouse>, steps: seq<Step>) {
    && |ws| == |steps| + 1 && ws[0].stock == map[] && ws[0].held == [] && ws[0].granted == {}
    && forall i :: 0 <= i < |steps| ==> Enabled(ws[i], steps[i]) && ws[i + 1] == Apply(ws[i], steps[i])
  }

  /** No booking or extension comes between the guard of a stock change and its write: what taking the availability
      lock for the whole change would ensure. */
  ghost predicate Undisturbed(w: Warehouse, s: Step) {
    s.Book? || s.Extend? ==> w.granted == {}
  }

  ghost predicate Locked(ws: seq<Warehouse>, steps: seq<Step>) {
    forall i :: 0 <= i < |steps| && i < |ws| ==> Undisturbed(ws[i], steps[i])
  }

  ghost predicate HeldOk(w: Warehouse) {
    forall i :: 0 <= i < |w.held| ==> w.held[i].quantity > 0 && w.held[i].window.Valid() && w.held[i].item in w.stock
  }

  /** From that instant on, no item is reserved beyond its stock. */
  ghost predicate FitsFrom(w: Warehouse, from: int) {
    forall item, t :: item in w.stock && t >= from ==> ReservedAt(item, w.held, t) <= w.stock[item]
  }

  ghost predicate NeverOversold(w: Warehouse) {
    FitsFrom(w, w.now)
  }

  /** The later of the two clocks. */
  function Horizon(w: Warehouse): int {
    w.now + Max(0, w.ahead)
  }

  ghost predicate Inv(w: Warehouse) {
    HeldOk(w) && FitsFrom(w, Horizon(w))
  }

  /** What is reserved still fits every stock change waiting to be written. */
  ghost predicate GrantsFit(w: Warehouse) {
    forall change :: change in w.granted ==>
      change.item in w.stock && forall t :: t >= Horizon(w) ==> ReservedAt(change.item, w.held, t) <= change.total
  }

  // ---------------------------------------------------------------- sums over reservations

  lemma {:induction false} FutureReservedBounds(item: ItemId, rs: seq<Reservation>, now: int, t: int)
    requires Positive(rs) && t >= now
    ensures ReservedAt(item, rs, t) <= FutureReserved(item, rs, now)
  {
    if rs != [] {
      FutureReservedBounds(item, rs[..|rs| - 1], now, t);
    }
  }

  lemma {:induction false} NoneOfTheItem(item: ItemId, rs: seq<Reservation>, t: int)
    requires forall i :: 0 <= i < |rs| ==> !(rs[i].item == item && rs[i].window.Contains(t))
    ensures ReservedAt(item, rs, t) == 0
  {
    if rs != [] {
      NoneOfTheItem(item, rs[..|rs| - 1], t);
    }
  }

  lemma {:induction false} WithoutReservesLess(item: ItemId, rs: seq<Reservation>, event: EventId, t: int)
    requires Positive(rs)
    ensures ReservedAt(item, Without(rs, event), t) <= ReservedAt(item, rs, t)
    ensures forall i :: 0 <= i < |Without(rs, event)| ==> Without(rs, event)[i] in rs
  {
    if rs != [] {
      var shorter, last := rs[..|rs| - 1], rs[|rs| - 1];
      WithoutReservesLess(item, shorter, event, t);
      if last.event != event {
        assert (Without(shorter, event) + [last])[..|Without(shorter, event)|] == Without(shorter, event);
      }
    }
  }

  /** Taking out the reservation at `p` takes out its units. */
  lemma ReservedAtSplit(item: ItemId, rs: seq<Reservation>, p: nat, t: int)
    requires p < |rs|
    ensures ReservedAt(item, rs, t)
            == ReservedAt(item, Others(rs, p), t)
               + (if rs[p].item == item && rs[p].window.Contains(t) then rs[p].quantity else 0)
  {
    assert rs == rs[..p] + ([rs[p]] + rs[p + 1..]);
    ReservedAtConcat(item, rs[..p], [rs[p]] + rs[p + 1..], t);
    ReservedAtConcat(item, [rs[p]], rs[p + 1..], t);
    ReservedAtConcat(item, rs[..p], rs[p + 1..], t);
    assert [rs[p]][..0] == [];
  }

  lemma {:induction false} ProlongedSame(item: ItemId, rs: seq<Reservation>, event: EventId, minutes: nat, t: int)
    requires forall i :: 0 <= i < |rs| && rs[i].event == event && rs[i].item == item ==>
               !rs[i].window.Extended(minutes).Contains(t)
    ensures ReservedAt(item, Prolonged(rs, event, minutes), t) == ReservedAt(item, rs, t)
  {
    if rs != [] {
      var shorter := rs[..|rs| - 1];
      ProlongedSame(item, shorter, event, minutes, t);
      assert Prolonged(rs, event, minutes)[..|rs| - 1] == Prolonged(shorter, event, minutes);
    }
  }

  // ---------------------------------------------------------------- each step

  ghost predicate DistinctItems(requirements: seq<Requirement>) {
    forall i, j :: 0 <= i < j < |requirements| ==> requirements[i].item != requirements[j].item
  }

  /** A package's reservations hold an item once, for its own quantity. */
  lemma WantsHoldItemOnce(event: EventId, requirements: seq<Requirement>, window: Window, p: nat, t: int)
    requires DistinctItems(requirements) && p < |requirements|
    ensures ReservedAt(requirements[p].item, Wants(event, requirements, window), t)
            == if window.Contains(t) then requirements[p].quantity else 0
  {
    var wants := Wants(event, requirements, window);
    var item := requirements[p].item;
    ReservedAtSplit(item, wants, p, t);
    forall i | 0 <= i < |Others(wants, p)|
      ensures Others(wants, p)[i].item != item
    {
      var q := if i < p then i else i + 1;
      assert Others(wants, p)[i] == wants[q] && requirements[q].item != item;
    }
    NoneOfTheItem(item, Others(wants, p), t);
  }

  lemma BookNeverOversells(w: Warehouse, event: EventId, requirements: seq<Requirement>, window: Window,
                           item: ItemId, t: int)
    requires Inv(w) && Enabled(w, Book(event, requirements, window)) && item in w.stock && t >= Horizon(w)
    ensures ReservedAt(item, w.held + Wants(event, requirements, window), t) <= w.stock[item]
  {
    var wants := Wants(event, requirements, window);
    ReservedAtConcat(item, w.held, wants, t);
    if p :| 0 <= p < |requirements| && requirements[p].item == item {
      WantsHoldItemOnce(event, requirements, window, p, t);
      if window.Contains(t) {
        NoShortageMeansAllCovered(event, requirements, w.held, window);
        assert Covers(w.stock[item], w.held, Wanted(event, requirements[p], window));
        ReservedAtWithinWindow(item, w.held, window, t);
      }
    } else {
      NoneOfTheItem(item, wants, t);
    }
  }

  /** Where an extended reservation holds the item, its own check bounds all that is held. */
  lemma CheckedHoldingFits(w: Warehouse, event: EventId, minutes: nat, p: nat, t: int)
    requires Inv(w) && Enabled(w, Extend(event, minutes)) && p < |w.held| && w.held[p].event == event
    requires Prolonged(w.held, event, minutes)[p].window.Contains(t)
    ensures ReservedAt(w.held[p].item, Prolonged(w.held, event, minutes), t) <= w.stock[w.held[p].item]
  {
    var longer := Prolonged(w.held, event, minutes);
    assert Covers(w.stock[w.held[p].item], Others(longer, p), Prolong(w.held[p], event, minutes));
    ReservedAtSplit(w.held[p].item, longer, p, t);
    ReservedAtWithinWindow(w.held[p].item, Others(longer, p), longer[p].window, t);
  }

  ghost predicate HeldLonger(w: Warehouse, event: EventId, minutes: nat, item: ItemId, t: int, p: nat) {
    p < |w.held| && w.held[p].event == event && w.held[p].item == item
        && Prolonged(w.held, event, minutes)[p].window.Contains(t)
  }

  lemma ExtendNeverOversells(w: Warehouse, event: EventId, minutes: nat, item: ItemId, t: int)
    requires Inv(w) && Enabled(w, Extend(event, minutes)) && item in w.stock && t >= Horizon(w)
    ensures ReservedAt(item, Prolonged(w.held, event, minutes), t) <= w.stock[item]
  {
    if exists p: nat :: HeldLonger(w, event, minutes, item, t, p) {
      var p: nat :| HeldLonger(w, event, minutes, item, t, p);
      CheckedHoldingFits(w, event, minutes, p, t);
    } else {
      forall p | 0 <= p < |w.held| && w.held[p].event == event && w.held[p].item == item
        ensures !Prolonged(w.held, event, minutes)[p].window.Contains(t)
      {
        assert !HeldLonger(w, event, minutes, item, t, p);
      }
      ProlongedSame(item, w.held, event, minutes, t);
    }
  }

  lemma StepKeepsInv(w: Warehouse, s: Step)
    requires Inv(w) && GrantsFit(w) && Enabled(w, s)
    ensures Inv(Apply(w, s))
  {
    var w' := Apply(w, s);
    if s.Cancel? {
      WithoutReservesLess(0, w.held, s.event, 0);
    }
    forall item, t | item in w'.stock && t >= Horizon(w')
      ensures ReservedAt(item, w'.held, t) <= w'.stock[item]
    {
      match s
      case Tick(_) =>
      case AddItem(new_, _) =>
        if item == new_ { NoneOfTheItem(item, w.held, t); }
      case GuardStock(_) =>
      case WriteStock(change) =>
        assert change in w.granted;
      case DropStock(_) =>
      case Book(event, requirements, window) => BookNeverOversells(w, event, requirements, window, item, t);
      case Extend(event, minutes) => ExtendNeverOversells(w, event, minutes, item, t);
      case Cancel(event) => WithoutReservesLess(item, w.held, event, t);
    }
  }

  lemma StepKeepsGrants(w: Warehouse, s: Step)
    requires Inv(w) && GrantsFit(w) && Enabled(w, s) && Undisturbed(w, s)
    ensures GrantsFit(Apply(w, s))
  {
    var w' := Apply(w, s);
    forall change, t | change in w'.granted && t >= Horizon(w')
      ensures ReservedAt(change.item, w'.held, t) <= change.total
    {
      if change !in w.granted {
        FutureReservedBounds(change.item, w.held, w.now + w.ahead, t);
      } else if s.Cancel? {
        WithoutReservesLess(change.item, w.held, s.event, t);
      }
    }
  }

  /** In every run whose stock changes are not disturbed, at every instant that both clocks have yet to reach, the
      active reservations of each item fit its stock; so at every present or future one when the guard's clock is
      not ahead. */
  lemma {:induction false} InventoryIsNeverOversold(ws: seq<Warehouse>, steps: seq<Step>, k: nat)
    requires Run(ws, steps) && Locked(ws, steps) && k < |ws|
    ensures HeldOk(ws[k]) && FitsFrom(ws[k], Horizon(ws[k])) && GrantsFit(ws[k]) && ws[k].ahead == ws[0].ahead
    ensures ws[k].ahead <= 0 ==> NeverOversold(ws[k])
  {
    if k > 0 {
      InventoryIsNeverOversold(ws, steps, k - 1);
      assert Undisturbed(ws[k - 1], steps[k - 1]);
      StepKeepsInv(ws[k - 1], steps[k - 1]);
      StepKeepsGrants(ws[k - 1], steps[k - 1]);
    }
  }

  // ---------------------------------------------------------------- when bookings and extensions pass

  lemma StepKeepsHeld(w: Warehouse, s: Step)
    requires HeldOk(w) && Enabled(w, s)
    ensures HeldOk(Apply(w, s))
  {
    if s.Cancel? {
      WithoutReservesLess(0, w.held, s.event, 0);
    }
  }

  lemma {:induction false} EveryRunKeepsHeld(ws: seq<Warehouse>, steps: seq<Step>, k: nat)
    requires Run(ws, steps) && k < |ws|
    ensures HeldOk(ws[k])
  {
    if k > 0 {
      EveryRunKeepsHeld(ws, steps, k - 1);
      StepKeepsHeld(ws[k - 1], steps[k - 1]);
    }
  }

  /** The stock leaves room for so many units of the item beside what shares an instant with the window. */
  ghost predicate RoomFor(quantity: int, stock: int, item: ItemId, rs: seq<Reservation>, window: Window) {
    UnitsSharing(item, rs, window) + quantity <= stock
  }

  lemma CoversMeansRoom(stock: int, rs: seq<Reservation>, r: Reservation)
    requires ValidWindows(rs) && r.window.Valid() && r.quantity > 0
    ensures Covers(stock, rs, r) <==> RoomFor(r.quantity, stock, r.item, rs, r.window)
  {
    ReservedMeansSharing(r.item, rs, r.window);
  }

  /** In every run a package can be booked exactly when the stock of each of its items has room beside the
      reservations that share an instant with the window, whatever is reserved at other times. */
  lemma BooksExactlyWhen(ws: seq<Warehouse>, steps: seq<Step>, k: nat, event: EventId,
                         requirements: seq<Requirement>, window: Window)
    requires Run(ws, steps) && k < |ws| && window.Valid() && DistinctItems(requirements)
    requires forall i :: 0 <= i < |requirements| ==>
               && requirements[i].quantity > 0 && requirements[i].item in ws[k].stock
               && requirements[i].stock == ws[k].stock[requirements[i].item]
    ensures Enabled(ws[k], Book(event, requirements, window)) <==>
            forall i :: 0 <= i < |requirements| ==>
              RoomFor(requirements[i].quantity, ws[k].stock[requirements[i].item], requirements[i].item,
                      ws[k].held, window)
  {
    EveryRunKeepsHeld(ws, steps, k);
    NoShortageMeansAllCovered(event, requirements, ws[k].held, window);
    forall i | 0 <= i < |requirements|
      ensures Covers(requirements[i].stock, ws[k].held, Wanted(event, requirements[i], window)) <==>
              RoomFor(requirements[i].quantity, requirements[i].stock, requirements[i].item, ws[k].held, window)
    {
      CoversMeansRoom(requirements[i].stock, ws[k].held, Wanted(event, requirements[i], window));
    }
  }

  /** And an event can be extended exactly when each of its reservations, made longer, has room beside all others,
      those of the same event made longer too. */
  lemma ExtendsExactlyWhen(ws: seq<Warehouse>, steps: seq<Step>, k: nat, event: EventId, minutes: nat)
    requires Run(ws, steps) && k < |ws|
    ensures Enabled(ws[k], Extend(event, minutes)) <==>
            forall p :: 0 <= p < |ws[k].held| && ws[k].held[p].event == event ==>
              && ws[k].held[p].item in ws[k].stock
              && RoomFor(ws[k].held[p].quantity, ws[k].stock[ws[k].held[p].item], ws[k].held[p].item,
                         Others(Prolonged(ws[k].held, event, minutes), p), ws[k].held[p].window.Extended(minutes))
  {
    EveryRunKeepsHeld(ws, steps, k);
    var w := ws[k];
    forall p | 0 <= p < |w.held| && w.held[p].event == event
      ensures Covers(w.stock[w.held[p].item], Others(Prolonged(w.held, event, minutes), p),
                     Prolong(w.held[p], event, minutes))
              <==> RoomFor(w.held[p].quantity, w.stock[w.held[p].item], w.held[p].item,
                           Others(Prolonged(w.held, event, minutes), p), w.held[p].window.Extended(minutes))
    {
      CoversMeansRoom(w.stock[w.held[p].item], Others(Prolonged(w.held, event, minutes), p),
                      Prolong(w.held[p], event, minutes));
    }
  }

  lemma {:induction false} NothingToTakeOut(rs: seq<Reservation>, event: EventId)
    requires forall r :: r in rs ==> r.event != event
    ensures Without(rs, event) == rs
  {
    if rs != [] {
      NothingToTakeOut(rs[..|rs| - 1], event);
    }
  }

  lemma {:induction false} TakingOutAll(rs: seq<Reservation>, own: seq<Reservation>, event: EventId)
    requires forall r :: r in rs ==> r.event != event
    requires forall r :: r in own ==> r.event == event
    ensures Without(rs + own, event) == rs
  {
    if own == [] {
      assert rs + own == rs;
      NothingToTakeOut(rs, event);
    } else {
      TakingOutAll(rs, own[..|own| - 1], event);
      assert (rs + own)[..|rs + own| - 1] == rs + own[..|own| - 1];
    }
  }

  lemma OnlyItsOwnAreProlonged(rs: seq<Reservation>, own: seq<Reservation>, event: EventId, minutes: nat)
    requires forall r :: r in rs ==> r.event != event
    ensures Prolonged(rs + own, event, minutes) == rs + Prolonged(own, event, minutes)
  {
  }

  /** Booking holds for the event exactly the units of its package over its window, and an extension moves the end of
      exactly those. */
  lemma BookingHoldsThePackage(w: Warehouse, event: EventId, requirements: seq<Requirement>, window: Window,
                               minutes: nat)
    requires forall r :: r in w.held ==> r.event != event
    ensures var held := Apply(w, Book(event, requirements, window)).held;
      && |held| == |w.held| + |requirements| && held[..|w.held|] == w.held
      && forall i :: 0 <= i < |requirements| ==>
           held[|w.held| + i] == Reservation(event, requirements[i].item, requirements[i].quantity, window)
    ensures var longer := Apply(Apply(w, Book(event, requirements, window)), Extend(event, minutes)).held;
      && |longer| == |w.held| + |requirements| && longer[..|w.held|] == w.held
      && forall i :: 0 <= i < |requirements| ==>
           longer[|w.held| + i] == Reservation(event, requirements[i].item, requirements[i].quantity,
                                               Window(window.start, window.end + minutes * 60))
  {
    OnlyItsOwnAreProlonged(w.held, Wants(event, requirements, window), event, minutes);
  }

  /** Cancelling an event, extended or not, gives back exactly what booking it took. */
  lemma CancellingUndoesBooking(w: Warehouse, event: EventId, requirements: seq<Requirement>, window: Window,
                                minutes: nat)
    requires forall r :: r in w.held ==> r.event != event
    ensures var booked := Apply(w, Book(event, requirements, window));
            Apply(booked, Cancel(event)) == w && Apply(Apply(booked, Extend(event, minutes)), Cancel(event)) == w
  {
    var wants := Wants(event, requirements, window);
    TakingOutAll(w.held, wants, event);
    OnlyItsOwnAreProlonged(w.held, wants, event, minutes);
    TakingOutAll(w.held, Prolonged(wants, event, minutes), event);
  }

  lemma {:induction false} FutureReservedConcat(item: ItemId, a: seq<Reservation>, b: seq<Reservation>, now: int)
    ensures FutureReserved(item, a + b, now) == FutureReserved(item, a, now) + FutureReserved(item, b, now)
  {
    if b == [] {
      assert a + b == a;
    } else {
      FutureReservedConcat(item, a, b[..|b| - 1], now);
      assert (a + b)[..|a + b| - 1] == a + b[..|b| - 1];
    }
  }

  /** The guard of a stock change counts, wherever it stands, exactly the units of the item in reservations whose end
      its clock has not reached. */
  lemma TheGuardCountsWhatHasNotEnded(item: ItemId, before: seq<Reservation>, r: Reservation, after: seq<Reservation>,
                                      clock: int)
    ensures FutureReserved(item, [], clock) == 0
    ensures FutureReserved(item, before + [r] + after, clock)
            == FutureReserved(item, before + after, clock)
               + (if r.item == item && clock < r.window.end then r.quantity else 0)
  {
    assert [r][..0] == [];
    FutureReservedConcat(item, before, [r], clock);
    FutureReservedConcat(item, before + [r], after, clock);
    FutureReservedConcat(item, before, after, clock);
  }

  lemma {:induction false} NothingLeftToGuard(item: ItemId, rs: seq<Reservation>, clock: int)
    requires forall r :: r in rs && r.item == item ==> r.window.end <= clock
    ensures FutureReserved(item, rs, clock) == 0
  {
    if rs != [] {
      NothingLeftToGuard(item, rs[..|rs| - 1], clock);
    }
  }

  /** Once every reservation of an item has ended for the guard's clock, all its stock can be taken away, and that
      change is written once; a change that is dropped is not. */
  lemma EndedReservationsFreeTheStock(w: Warehouse, item: ItemId, seconds: nat)
    requires item in w.stock && forall r :: r in w.held && r.item == item ==> r.window.end <= w.now + seconds + w.ahead
    ensures var later, change := Apply(w, Tick(seconds)), StockChange(item, 0);
            var granted := Apply(later, GuardStock(change));
            && Enabled(later, GuardStock(change)) && Enabled(granted, WriteStock(change))
            && Apply(granted, WriteStock(change)).stock == w.stock[item := 0]
            && !Enabled(Apply(granted, WriteStock(change)), WriteStock(change))
            && !Enabled(Apply(granted, DropStock(change)), WriteStock(change))
            && Apply(granted, WriteStock(change)).held == w.held
  {
    NothingLeftToGuard(item, w.held, w.now + seconds + w.ahead);
  }

  // ---------------------------------------------------------------- what breaks the guarantee

  // One unit in use for a second.
  const IN_USE := Reservation(0, 0, 1, Window(0, 1))

  lemma OneInUse(ahead: int)
    requires ahead > 0
    ensures FutureReserved(0, [IN_USE], ahead) == 0 && ReservedAt(0, [IN_USE], 0) == 1
  {
    assert [IN_USE][..0] == [];
    assert FutureReserved(0, [], ahead) == 0 && ReservedAt(0, [], 0) == 0;
  }

  lemma OneIsBooked(w: Warehouse)
    requires w.stock == map[0 := 1] && w.held == []
    ensures Enabled(w, Book(0, [Requirement(0, 1, 1)], Window(0, 1)))
    ensures Apply(w, Book(0, [Requirement(0, 1, 1)], Window(0, 1))) == w.(held := [IN_USE])
  {
    var asked, window := [Requirement(0, 1, 1)], Window(0, 1);
    assert asked[..0] == [] && Shortages([], w.held, window) == [];
    assert AvailableQuantity(1, 0, w.held, window) == 1;
    assert Wants(0, asked, window) == [IN_USE];
  }

  const NO_UNITS := StockChange(0, 0)

  /** With the guard's clock ahead, a unit that is in use counts as free, and its stock can be taken away. */
  lemma AClockAheadOversells(ahead: int) returns (ws: seq<Warehouse>, steps: seq<Step>)
    requires ahead > 0
    ensures Run(ws, steps) && Locked(ws, steps) && ws[0].ahead == ahead && |steps| == 4 && !NeverOversold(ws[4])
  {
    var w0 := Warehouse(map[], [], {}, 0, ahead);
    var w1 := w0.(stock := map[0 := 1]);
    var w2 := w1.(held := [IN_USE]);
    var w3 := w2.(granted := {NO_UNITS});
    var w4 := w2.(stock := map[0 := 0]);
    OneIsBooked(w1);
    OneInUse(ahead);
    assert w3.stock[0 := 0] == w4.stock && w3.granted - {NO_UNITS} == {};
    ws := [w0, w1, w2, w3, w4];
    steps := [AddItem(0, 1), Book(0, [Requirement(0, 1, 1)], Window(0, 1)), GuardStock(NO_UNITS), WriteStock(NO_UNITS)];
    assert ReservedAt(0, w4.held, 0) > w4.stock[0];
  }

  /** Whatever the guard's clock, a booking between the guard of a stock change and its write takes units that the
      write then takes away. */
  lemma ABookingInBetweenOversells(ahead: int) returns (ws: seq<Warehouse>, steps: seq<Step>)
    ensures Run(ws, steps) && ws[0].ahead == ahead && |steps| == 4 && !NeverOversold(ws[4])
  {
    var w0 := Warehouse(map[], [], {}, 0, ahead);
    var w1 := w0.(stock := map[0 := 1]);
    var w2 := w1.(granted := {NO_UNITS});
    var w3 := w2.(held := [IN_USE]);
    var w4 := Warehouse(map[0 := 0], [IN_USE], {}, 0, ahead);
    assert FutureReserved(0, w1.held, w1.now + w1.ahead) == 0;
    OneIsBooked(w2);
    OneInUse(1);
    assert w3.stock[0 := 0] == w4.stock && w3.granted - {NO_UNITS} == {};
    ws := [w0, w1, w2, w3, w4];
    steps := [AddItem(0, 1), GuardStock(NO_UNITS), Book(0, [Requirement(0, 1, 1)], Window(0, 1)), WriteStock(NO_UNITS)];
    assert ReservedAt(0, w4.held, 0) > w4.stock[0];
  }

  /** Every run keeps each item within its stock at every present and future instant if and only if stock changes take
      the lock of bookings and extensions and the clock of their guard is not ahead of the one reservations are
      kept in. */
  lemma NeverOversoldExactlyWhen(locked: bool, ahead: int)
    ensures (forall ws: seq<Warehouse>, steps: seq<Step>, k: nat ::
               Run(ws, steps) && ws[0].ahead == ahead && (locked ==> Locked(ws, steps)) && k < |ws| ==>
                 NeverOversold(ws[k]))
            <==> locked && ahead <= 0
  {
    if !locked {
      var ws, steps := ABookingInBetweenOversells(ahead);
      assert !NeverOversold(ws[4]);
    } else if ahead > 0 {
      var ws, steps := AClockAheadOversells(ahead);
      assert !NeverOversold(ws[4]);
    } else {
      forall ws: seq<Warehouse>, steps: seq<Step>, k: nat |
        Run(ws, steps) && ws[0].ahead == ahead && Locked(ws, steps) && k < |ws|
        ensures NeverOversold(ws[k])
      {
        InventoryIsNeverOversold(ws, steps, k);
      }
    }
  }
}
