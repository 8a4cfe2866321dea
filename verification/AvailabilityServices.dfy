/** The three availability rules: simultaneous shows, inventory and crew travel. */
module AvailabilityServices {
  import opened Common
  import opened TimeWindows

  type ItemId = nat
  type EventId = nat

  // ---------------------------------------------------------------- simultaneous shows

  function Overlapping(windows: seq<Window>, candidate: Window): nat {
    if windows == [] then 0
    else Overlapping(windows[..|windows| - 1], candidate)
         + (if windows[|windows| - 1].Overlaps(candidate) then 1 else 0)
  }

  function SimultaneousCount(windows: seq<Window>, candidate: Window): nat {
    1 + Overlapping(windows, candidate)
  }

  predicate RequiresManualApproval(windows: seq<Window>, candidate: Window, threshold: nat) {
    SimultaneousCount(windows, candidate) > threshold
  }

  /** How many of the windows are on at instant `t`. */
  function Covering(windows: seq<Window>, t: int): nat {
    if windows == [] then 0
    else Covering(windows[..|windows| - 1], t) + (if windows[|windows| - 1].Contains(t) then 1 else 0)
  }

  /** The rule counts overlaps with the candidate, which bounds what is on at any of its instants. */
  lemma {:induction false} CoveringAtMostOverlapping(windows: seq<Window>, candidate: Window, t: int)
    requires candidate.Contains(t)
    ensures Covering(windows, t) <= Overlapping(windows, candidate)
  {
    if windows != [] {
      CoveringAtMostOverlapping(windows[..|windows| - 1], candidate, t);
    }
  }

  /** Which of the windows share an instant with the candidate. */
  ghost function Simultaneous(windows: seq<Window>, candidate: Window): set<nat> {
    set i: nat | i < |windows| && ShareAnInstant(windows[i], candidate)
  }

  /** The rule counts the candidate and every window that shares an instant with it. */
  lemma {:induction false} CountsThoseThatShareAnInstant(windows: seq<Window>, candidate: Window)
    requires candidate.Valid() && forall w :: w in windows ==> w.Valid()
    ensures SimultaneousCount(windows, candidate) == 1 + |Simultaneous(windows, candidate)|
  {
    if windows == [] {
      assert Simultaneous(windows, candidate) == {};
    } else {
      var shorter, last := windows[..|windows| - 1], |windows| - 1;
      CountsThoseThatShareAnInstant(shorter, candidate);
      OverlapMeansSharedInstant(windows[last], candidate);
      assert Simultaneous(windows, candidate) ==
             Simultaneous(shorter, candidate) + (if ShareAnInstant(windows[last], candidate) then {last} else {});
    }
  }

  // ---------------------------------------------------------------- inventory

  /** Units of an item held, or wanted, by an event over a window. */
  datatype Reservation = Reservation(event: EventId, item: ItemId, quantity: int, window: Window)

  function ReservedQuantity(item: ItemId, rs: seq<Reservation>, window: Window): int {
    if rs == [] then 0
    else
      var r := rs[|rs| - 1];
      ReservedQuantity(item, rs[..|rs| - 1], window)
      + (if r.item == item && r.window.Overlaps(window) then r.quantity else 0)
  }

  function AvailableQuantity(stock: int, item: ItemId, rs: seq<Reservation>, window: Window): int {
    Max(0, stock - ReservedQuantity(item, rs, window))
  }

  /** Units of the item held by reservations that share an instant with the window. */
  ghost function UnitsSharing(item: ItemId, rs: seq<Reservation>, window: Window): int {
    if rs == [] then 0
    else
      (if rs[0].item == item && ShareAnInstant(rs[0].window, window) then rs[0].quantity else 0)
      + UnitsSharing(item, rs[1..], window)
  }

  ghost predicate ValidWindows(rs: seq<Reservation>) {
    forall i :: 0 <= i < |rs| ==> rs[i].window.Valid()
  }

  lemma {:induction false} ReservedQuantityConcat(item: ItemId, a: seq<Reservation>, b: seq<Reservation>,
                                                   window: Window)
    ensures ReservedQuantity(item, a + b, window)
            == ReservedQuantity(item, a, window) + ReservedQuantity(item, b, window)
  {
    if b == [] {
      assert a + b == a;
    } else {
      ReservedQuantityConcat(item, a, b[..|b| - 1], window);
      assert (a + b)[..|a + b| - 1] == a + b[..|b| - 1];
    }
  }

  lemma OneReserved(item: ItemId, r: Reservation, window: Window)
    requires r.window.Valid() && window.Valid()
    ensures ReservedQuantity(item, [r], window)
            == if r.item == item && ShareAnInstant(r.window, window) then r.quantity else 0
  {
    OverlapMeansSharedInstant(r.window, window);
    assert [r][..0] == [];
  }

  /** What is reserved over a window is what reservations of the item sharing an instant with it hold. */
  lemma {:induction false} ReservedMeansSharing(item: ItemId, rs: seq<Reservation>, window: Window)
    requires window.Valid() && ValidWindows(rs)
    ensures ReservedQuantity(item, rs, window) == UnitsSharing(item, rs, window)
  {
    if rs != [] {
      ReservedMeansSharing(item, rs[1..], window);
      OneReserved(item, rs[0], window);
      ReservedQuantityConcat(item, [rs[0]], rs[1..], window);
      assert rs == [rs[0]] + rs[1..];
    }
  }

  /** One reservation among others takes exactly its units from the stock of its own item over windows it shares an
      instant with, and nothing from any other item or window. */
  lemma OnlySharedInstantsTakeStock(item: ItemId, before: seq<Reservation>, r: Reservation, after: seq<Reservation>,
                                    window: Window)
    requires r.window.Valid() && window.Valid()
    ensures ReservedQuantity(item, before + [r] + after, window) == ReservedQuantity(item, before + after, window)
            + (if r.item == item && ShareAnInstant(r.window, window) then r.quantity else 0)
  {
    OneReserved(item, r, window);
    ReservedQuantityConcat(item, before, [r], window);
    ReservedQuantityConcat(item, before + [r], after, window);
    ReservedQuantityConcat(item, before, after, window);
  }

  predicate Covers(stock: int, rs: seq<Reservation>, request: Reservation) {
    AvailableQuantity(stock, request.item, rs, request.window) >= request.quantity
  }

  /** Units of `item` in use at instant `t`. */
  function ReservedAt(item: ItemId, rs: seq<Reservation>, t: int): int {
    if rs == [] then 0
    else
      var r := rs[|rs| - 1];
      ReservedAt(item, rs[..|rs| - 1], t) + (if r.item == item && r.window.Contains(t) then r.quantity else 0)
  }

  ghost predicate Positive(rs: seq<Reservation>) {
    forall i :: 0 <= i < |rs| ==> rs[i].quantity > 0
  }

  lemma {:induction false} ReservedAtWithinWindow(item: ItemId, rs: seq<Reservation>, window: Window, t: int)
    requires Positive(rs) && window.Contains(t)
    ensures 0 <= ReservedAt(item, rs, t) <= ReservedQuantity(item, rs, window)
  {
    if rs != [] {
      ReservedAtWithinWindow(item, rs[..|rs| - 1], window, t);
    }
  }

  lemma {:induction false} ReservedAtConcat(item: ItemId, a: seq<Reservation>, b: seq<Reservation>, t: int)
    ensures ReservedAt(item, a + b, t) == ReservedAt(item, a, t) + ReservedAt(item, b, t)
  {
    if b == [] {
      assert a + b == a;
    } else {
      ReservedAtConcat(item, a, b[..|b| - 1], t);
      assert (a + b)[..|a + b| - 1] == a + b[..|b| - 1];
    }
  }

  // ---------------------------------------------------------------- crew travel

  const REST_BUFFER_MINUTES := 30

  /** The minutes needed between two shows; an override is taken as it is. `None` is an invalid input. */
  function RequiredInterval(transit: int, override: Option<int>): Option<int> {
    if transit < 0 then None
    else if override.Some? then (if override.value < 0 then None else override)
    else Some(transit + REST_BUFFER_MINUTES)
  }

  predicate IsFeasible(previous: Window, following: Window, transit: int, override: Option<int>) {
    var required := RequiredInterval(transit, override);
    required.Some? && previous.GapMinutesBefore(following) >= required.value
  }

  /** A crew may take both shows exactly when the seconds between them cover the interval asked for, or the travel and
      thirty minutes of rest. */
  lemma FeasibleExactlyWithTheInterval(previous: Window, following: Window, transit: int, override: Option<int>)
    ensures IsFeasible(previous, following, transit, override) <==>
              && transit >= 0
              && match override
                 case Some(minutes) => minutes >= 0 && following.start - previous.end >= minutes * 60
                 case None => following.start - previous.end >= (transit + 30) * 60
  {
  }

  // ---------------------------------------------------------------- the availability query

  datatype Requirement = Requirement(item: ItemId, quantity: int, stock: int)
  datatype Shortage = Shortage(item: ItemId, requested: int, available: int)
  datatype AvailabilityStatus = Available | Conflict | RequiresApproval
  datatype Availability = Availability(status: AvailabilityStatus, simultaneous: nat, shortages: seq<Shortage>)

  function Wanted(event: EventId, q: Requirement, window: Window): Reservation {
    Reservation(event, q.item, q.quantity, window)
  }

  /** The requirements the stock does not cover, in order. */
  function Shortages(requirements: seq<Requirement>, rs: seq<Reservation>, window: Window): seq<Shortage> {
    if requirements == [] then []
    else
      var q := requirements[|requirements| - 1];
      var before := Shortages(requirements[..|requirements| - 1], rs, window);
      var free := AvailableQuantity(q.stock, q.item, rs, window);
      if free >= q.quantity then before else before + [Shortage(q.item, q.quantity, free)]
  }

  lemma {:induction false} NoShortageMeansAllCovered(event: EventId, requirements: seq<Requirement>,
                                                     rs: seq<Reservation>, window: Window)
    ensures Shortages(requirements, rs, window) == []
            <==> forall i :: 0 <= i < |requirements| ==>
                   Covers(requirements[i].stock, rs, Wanted(event, requirements[i], window))
  {
    if requirements != [] {
      var shorter := requirements[..|requirements| - 1];
      NoShortageMeansAllCovered(event, shorter, rs, window);
      assert forall i :: 0 <= i < |shorter| ==> shorter[i] == requirements[i];
    }
  }

  /** The units of the requirement's item that the reservations leave free over the window. */
  ghost function FreeUnits(q: Requirement, rs: seq<Reservation>, window: Window): int {
    if UnitsSharing(q.item, rs, window) >= q.stock then 0 else q.stock - UnitsSharing(q.item, rs, window)
  }

  /** The places of the requirements that want more than is free. */
  ghost predicate ShortPlaces(places: seq<nat>, requirements: seq<Requirement>, rs: seq<Reservation>, window: Window) {
    && (forall a, b :: 0 <= a < b < |places| ==> places[a] < places[b])
    && (forall i :: i in places <==>
          0 <= i < |requirements| && requirements[i].quantity > FreeUnits(requirements[i], rs, window))
  }

  ghost predicate ShortagesAt(places: seq<nat>, shortages: seq<Shortage>, requirements: seq<Requirement>,
                              rs: seq<Reservation>, window: Window) {
    && |shortages| == |places|
    && forall a :: 0 <= a < |places| ==>
         && places[a] < |requirements|
         && shortages[a] == Shortage(requirements[places[a]].item, requirements[places[a]].quantity,
                                     FreeUnits(requirements[places[a]], rs, window))
  }

  lemma FreeIsWhatSharingLeaves(q: Requirement, rs: seq<Reservation>, window: Window)
    requires window.Valid() && ValidWindows(rs)
    ensures AvailableQuantity(q.stock, q.item, rs, window) == FreeUnits(q, rs, window)
  {
    ReservedMeansSharing(q.item, rs, window);
  }

  lemma PlacesGrow(places: seq<nat>, requirements: seq<Requirement>, q: Requirement, rs: seq<Reservation>,
                   window: Window)
    requires ShortPlaces(places, requirements, rs, window)
    ensures ShortPlaces(if q.quantity > FreeUnits(q, rs, window) then places + [|requirements|] else places,
                        requirements + [q], rs, window)
  {
    var longer := requirements + [q];
    var places' := if q.quantity > FreeUnits(q, rs, window) then places + [|requirements|] else places;
    forall i: nat
      ensures i in places' <==> i < |longer| && longer[i].quantity > FreeUnits(longer[i], rs, window)
    {
      if i < |requirements| {
        assert longer[i] == requirements[i];
      } else if i == |requirements| {
        assert longer[i] == q && i !in places;
      }
    }
    forall a, b | 0 <= a < b < |places'|
      ensures places'[a] < places'[b]
    {
      assert places[a] in places;
    }
  }

  lemma ShortagesGrow(places: seq<nat>, shortages: seq<Shortage>, requirements: seq<Requirement>, q: Requirement,
                      rs: seq<Reservation>, window: Window)
    requires ShortagesAt(places, shortages, requirements, rs, window)
    ensures ShortagesAt(places, shortages, requirements + [q], rs, window)
    ensures ShortagesAt(places + [|requirements|],
                        shortages + [Shortage(q.item, q.quantity, FreeUnits(q, rs, window))],
                        requirements + [q], rs, window)
  {
  }

  /** The shortages are the requirements that want more than is free, in their order, each with what is free. */
  lemma {:induction false} ShortagesAreWhatIsMissing(requirements: seq<Requirement>, rs: seq<Reservation>,
                                                     window: Window) returns (places: seq<nat>)
    requires window.Valid() && ValidWindows(rs)
    ensures ShortPlaces(places, requirements, rs, window)
    ensures ShortagesAt(places, Shortages(requirements, rs, window), requirements, rs, window)
  {
    if requirements == [] {
      places := [];
    } else {
      var shorter, q := requirements[..|requirements| - 1], requirements[|requirements| - 1];
      places := ShortagesAreWhatIsMissing(shorter, rs, window);
      FreeIsWhatSharingLeaves(q, rs, window);
      PlacesGrow(places, shorter, q, rs, window);
      ShortagesGrow(places, Shortages(shorter, rs, window), shorter, q, rs, window);
      assert requirements == shorter + [q];
      if q.quantity > FreeUnits(q, rs, window) {
        places := places + [|shorter|];
      }
    }
  }

  /** Missing inventory outranks an exceeded threshold; only then does the threshold decide. */
  method CheckAvailability(requirements: seq<Requirement>, rs: seq<Reservation>, countable: seq<Window>,
                           window: Window, threshold: nat)
    returns (answer: Availability)
    requires window.Valid() && ValidWindows(rs) && forall w :: w in countable ==> w.Valid()
    ensures answer.simultaneous == SimultaneousCount(countable, window) == 1 + |Simultaneous(countable, window)|
    ensures answer.shortages == Shortages(requirements, rs, window)
    ensures answer.status == Conflict <==>
      exists i :: 0 <= i < |requirements| && requirements[i].quantity > FreeUnits(requirements[i], rs, window)
    ensures answer.status == RequiresApproval <==>
              answer.shortages == [] && 1 + |Simultaneous(countable, window)| > threshold
  {
    var shortages: seq<Shortage> := [];
    for i := 0 to |requirements|
      invariant shortages == Shortages(requirements[..i], rs, window)
    {
      var q := requirements[i];
      var free := AvailableQuantity(q.stock, q.item, rs, window);
      assert requirements[..i + 1][..i] == requirements[..i];
      if free < q.quantity {
        shortages := shortages + [Shortage(q.item, q.quantity, free)];
      }
    }
    assert requirements[..|requirements|] == requirements;
    ghost var places := ShortagesAreWhatIsMissing(requirements, rs, window);
    assert shortages != [] ==> places[0] in places;
    CountsThoseThatShareAnInstant(countable, window);
    var count := SimultaneousCount(countable, window);
    var status := Available;
    if shortages != [] {
      status := Conflict;
    } else if count > threshold {
      status := RequiresApproval;
    }
    answer := Availability(status, count, shortages);
  }
}
