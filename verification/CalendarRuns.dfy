/**
 * Every run of admissions without overbooking approval, extensions and cancellations, one at a time under
 * the availability lock. A show is stored as a day, a start and an end time of day and its extra minutes;
 * the checks use the window rebuilt from that. `admitted` is a history variable: the window the show was
 * really sold for, extensions included.
 */
module CalendarRuns {
  import opened Common
  import opened TimeWindows
  import opened AvailabilityServices

  datatype Show = Show(
    day: int, startTime: int, endTime: int, extraMinutes: nat, advance: int, cancelled: bool,
    admitted: Window)

  datatype Calendar = Calendar(shows: seq<Show>, threshold: nat)

  datatype Step =
    | Admit(day: int, startTime: int, minutes: int, advance: int)
    | Extend(show: nat, extra: nat)
    | Cancel(show: nat)

  /** The operating window of a stored show. */
  function Operating(s: Show): Option<Window> {
    var scheduled := FromStored(s.day, s.startTime, s.endTime);
    if scheduled.None? then None else Some(scheduled.value.Extended(s.extraMinutes))
  }

  /** The operating windows of the shows that count. An extension counts those with an advance paid. */
  function Countable(shows: seq<Show>): seq<Window> {
    if shows == [] then []
    else
      var last := shows[|shows| - 1];
      var before := Countable(shows[..|shows| - 1]);
      if last.cancelled || Operating(last).None? then before else before + [Operating(last).value]
  }

  function WithAdvance(shows: seq<Show>): seq<Show> {
    if shows == [] then []
    else
      var before := WithAdvance(shows[..|shows| - 1]);
      if shows[|shows| - 1].advance > 0 then before + [shows[|shows| - 1]] else before
  }

  function Others(shows: seq<Show>, i: nat): seq<Show>
    requires i < |shows|
  {
    shows[..i] + shows[i + 1..]
  }

  function Lengthened(s: Show, minutes: nat): Show {
    s.(extraMinutes := s.extraMinutes + minutes, admitted := s.admitted.Extended(minutes))
  }

  /** The database refuses an event that would end at the time of day it starts. */
  ghost predicate Enabled(c: Calendar, s: Step) {
    match s
    case Admit(day, startTime, minutes, advance) =>
      && TimeOfDay(startTime) && 0 < minutes && advance > 0
      && StoredEnd(FromSchedule(day, startTime, minutes).value) != startTime
      && !RequiresManualApproval(Countable(c.shows), FromSchedule(day, startTime, minutes).value, c.threshold)
    case Extend(i, minutes) =>
      && i < |c.shows| && !c.shows[i].cancelled && Operating(c.shows[i]).Some?
      && !RequiresManualApproval(Countable(WithAdvance(Others(c.shows, i))),
                                 Operating(Lengthened(c.shows[i], minutes)).value, c.threshold)
    case Cancel(i) => i < |c.shows|
  }

  function Apply(c: Calendar, s: Step): Calendar
    requires s.Admit? ==> s.minutes > 0
    requires s.Extend? ==> s.show < |c.shows|
    requires s.Cancel? ==> s.show < |c.shows|
  {
    match s
    case Admit(day, startTime, minutes, advance) =>
      var w := FromSchedule(day, startTime, minutes).value;
      c.(shows := c.shows + [Show(day, startTime, StoredEnd(w), 0, advance, false, w)])
    case Extend(i, minutes) => c.(shows := c.shows[i := Lengthened(c.shows[i], minutes)])
    case Cancel(i) => c.(shows := c.shows[i := c.shows[i].(cancelled := true)])
  }

  ghost predicate Run(cs: seq<Calendar>, steps: seq<Step>) {
    && |cs| == |steps| + 1 && cs[0].shows == []
    && forall i :: 0 <= i < |steps| ==> Enabled(cs[i], steps[i]) && cs[i + 1] == Apply(cs[i], steps[i])
  }

  /** Every package admitted lasts at most `cap` minutes. */
  ghost predicate CappedRun(cs: seq<Calendar>, steps: seq<Step>, cap: nat) {
    Run(cs, steps) && forall i :: 0 <= i < |steps| && steps[i].Admit? ==> steps[i].minutes <= cap
  }

  /** How many shows that were not cancelled are really on at instant `t`. */
  function OnAt(shows: seq<Show>, t: int): nat {
    if shows == [] then 0
    else
      var last := shows[|shows| - 1];
      OnAt(shows[..|shows| - 1], t) + (if !last.cancelled && last.admitted.Contains(t) then 1 else 0)
  }

  /** What is stored gives back the window that was sold. */
  ghost predicate StoredFaithfully(s: Show) {
    Operating(s) == Some(s.admitted) && s.advance > 0
  }

  ghost predicate AllFaithful(shows: seq<Show>) {
    forall i :: 0 <= i < |shows| ==> StoredFaithfully(shows[i])
  }

  ghost predicate Inv(c: Calendar) {
    && AllFaithful(c.shows)
    && (forall t :: OnAt(c.shows, t) <= c.threshold)
  }

  lemma CoveringOneMore(windows: seq<Window>, w: Window, t: int)
    ensures Covering(windows + [w], t) == Covering(windows, t) + (if w.Contains(t) then 1 else 0)
  {
    assert (windows + [w])[..|windows|] == windows;
  }

  lemma {:induction false} OnAtIsCovering(shows: seq<Show>, t: int)
    requires AllFaithful(shows)
    ensures OnAt(shows, t) == Covering(Countable(shows), t)
  {
    if shows != [] {
      var shorter, last := shows[..|shows| - 1], shows[|shows| - 1];
      OnAtIsCovering(shorter, t);
      assert StoredFaithfully(last);
      CoveringOneMore(Countable(shorter), last.admitted, t);
    }
  }

  lemma {:induction false} AllHaveAdvance(shows: seq<Show>)
    requires AllFaithful(shows)
    ensures WithAdvance(shows) == shows
  {
    if shows != [] {
      var shorter, last := shows[..|shows| - 1], shows[|shows| - 1];
      AllHaveAdvance(shorter);
      assert StoredFaithfully(last);
      assert shows == shorter + [last];
    }
  }

  lemma {:induction false} OnAtConcat(a: seq<Show>, b: seq<Show>, t: int)
    ensures OnAt(a + b, t) == OnAt(a, t) + OnAt(b, t)
  {
    if b == [] {
      assert a + b == a;
    } else {
      OnAtConcat(a, b[..|b| - 1], t);
      assert (a + b)[..|a + b| - 1] == a + b[..|b| - 1];
    }
  }

  lemma OnAtSplit(shows: seq<Show>, i: nat, t: int)
    requires i < |shows|
    ensures OnAt(shows, t)
            == OnAt(Others(shows, i), t) + (if !shows[i].cancelled && shows[i].admitted.Contains(t) then 1 else 0)
  {
    assert shows == shows[..i] + ([shows[i]] + shows[i + 1..]);
    OnAtConcat(shows[..i], [shows[i]] + shows[i + 1..], t);
    OnAtConcat([shows[i]], shows[i + 1..], t);
    OnAtConcat(shows[..i], shows[i + 1..], t);
    assert [shows[i]][..0] == [];
  }

  lemma AdmitKeepsInv(c: Calendar, s: Step)
    requires Inv(c) && s.Admit? && Enabled(c, s) && s.minutes * MINUTE <= DAY
    ensures Inv(Apply(c, s))
  {
    var c' := Apply(c, s);
    var w := FromSchedule(s.day, s.startTime, s.minutes).value;
    RebuiltExactlyUnderADay(s.day, s.startTime, s.minutes);
    assert w.Extended(0) == w;
    forall t
      ensures OnAt(c'.shows, t) <= c.threshold
    {
      assert c'.shows[..|c.shows|] == c.shows;
      if w.Contains(t) {
        OnAtIsCovering(c.shows, t);
        CoveringAtMostOverlapping(Countable(c.shows), w, t);
      }
    }
  }

  lemma ExtendKeepsInv(c: Calendar, i: nat, minutes: nat)
    requires Inv(c) && Enabled(c, Extend(i, minutes))
    ensures Inv(Apply(c, Extend(i, minutes)))
  {
    var c' := Apply(c, Extend(i, minutes));
    var longer := Lengthened(c.shows[i], minutes);
    assert StoredFaithfully(c.shows[i]);
    assert StoredFaithfully(longer);
    assert Others(c'.shows, i) == Others(c.shows, i);
    forall t
      ensures OnAt(c'.shows, t) <= c.threshold
    {
      OnAtSplit(c'.shows, i, t);
      OnAtSplit(c.shows, i, t);
      if longer.admitted.Contains(t) {
        var others := Others(c.shows, i);
        OnAtIsCovering(others, t);
        AllHaveAdvance(others);
        CoveringAtMostOverlapping(Countable(others), longer.admitted, t);
      }
    }
  }

  lemma CancelKeepsInv(c: Calendar, i: nat)
    requires Inv(c) && i < |c.shows|
    ensures Inv(Apply(c, Cancel(i)))
  {
    var c' := Apply(c, Cancel(i));
    assert StoredFaithfully(c.shows[i]);
    assert Others(c'.shows, i) == Others(c.shows, i);
    forall t
      ensures OnAt(c'.shows, t) <= c.threshold
    {
      OnAtSplit(c'.shows, i, t);
      OnAtSplit(c.shows, i, t);
    }
  }

  /** With packages of at most a day, in every run no instant has more shows on than the threshold, and each
      stored show rebuilds the window it was sold for, midnight crossings and extensions included. */
  lemma {:induction false} ThresholdHoldsAtEveryInstant(cs: seq<Calendar>, steps: seq<Step>, cap: nat, k: nat)
    requires CappedRun(cs, steps, cap) && cap * MINUTE <= DAY && k < |cs|
    ensures Inv(cs[k]) && cs[k].threshold == cs[0].threshold
  {
    if k > 0 {
      ThresholdHoldsAtEveryInstant(cs, steps, cap, k - 1);
      match steps[k - 1]
      case Admit(_, _, _, _) => AdmitKeepsInv(cs[k - 1], steps[k - 1]);
      case Extend(i, minutes) => ExtendKeepsInv(cs[k - 1], i, minutes);
      case Cancel(i) => CancelKeepsInv(cs[k - 1], i);
    } else {
      assert forall t :: OnAt(cs[0].shows, t) == 0;
    }
  }

  // ---------------------------------------------------------------- when a show is admitted

  ghost predicate SoldForTime(shows: seq<Show>) {
    forall i :: 0 <= i < |shows| ==> shows[i].admitted.Valid()
  }

  lemma {:induction false} EveryRunSellsTime(cs: seq<Calendar>, steps: seq<Step>, k: nat)
    requires Run(cs, steps) && k < |cs|
    ensures SoldForTime(cs[k].shows)
  {
    if k > 0 {
      EveryRunSellsTime(cs, steps, k - 1);
    }
  }

  /** How many shows that were not cancelled share an instant with the window they are compared with. */
  ghost function Sharing(shows: seq<Show>, window: Window): nat {
    if shows == [] then 0
    else
      var last := shows[|shows| - 1];
      Sharing(shows[..|shows| - 1], window)
      + (if !last.cancelled && ShareAnInstant(last.admitted, window) then 1 else 0)
  }

  lemma OverlappingOneMore(windows: seq<Window>, w: Window, window: Window)
    requires w.Valid() && window.Valid()
    ensures Overlapping(windows + [w], window) ==
            Overlapping(windows, window) + (if ShareAnInstant(w, window) then 1 else 0)
  {
    assert (windows + [w])[..|windows|] == windows;
    OverlapMeansSharedInstant(w, window);
  }

  lemma {:induction false} CountableAreThoseThatShare(shows: seq<Show>, window: Window)
    requires AllFaithful(shows) && SoldForTime(shows) && window.Valid()
    ensures Overlapping(Countable(shows), window) == Sharing(shows, window)
  {
    if shows != [] {
      var shorter, last := shows[..|shows| - 1], shows[|shows| - 1];
      CountableAreThoseThatShare(shorter, window);
      assert StoredFaithfully(last) && last.admitted.Valid();
      OverlappingOneMore(Countable(shorter), last.admitted, window);
    }
  }

  /** With packages of at most a day, in every run a show is admitted exactly when it does not last a whole day and,
      with every show that shares an instant with it and was not cancelled, it is within the threshold. */
  lemma AdmitsExactlyWhen(cs: seq<Calendar>, steps: seq<Step>, cap: nat, k: nat, day: int, startTime: int, minutes: int,
                          advance: int)
    requires CappedRun(cs, steps, cap) && cap * MINUTE <= DAY && k < |cs|
    requires TimeOfDay(startTime) && 0 < minutes <= cap && advance > 0
    ensures var window := Window(day * DAY + startTime, day * DAY + startTime + minutes * 60);
            Enabled(cs[k], Admit(day, startTime, minutes, advance)) <==>
              minutes != 1440 && 1 + Sharing(cs[k].shows, window) <= cs[k].threshold
  {
    ThresholdHoldsAtEveryInstant(cs, steps, cap, k);
    EveryRunSellsTime(cs, steps, k);
    var window := FromSchedule(day, startTime, minutes).value;
    EndWithinDay(day, startTime + minutes * MINUTE);
    CountableAreThoseThatShare(cs[k].shows, window);
  }

  /** And a show is extended exactly when, with the others, its longer window still is. */
  lemma ExtendsExactlyWhen(cs: seq<Calendar>, steps: seq<Step>, cap: nat, k: nat, i: nat, minutes: nat)
    requires CappedRun(cs, steps, cap) && cap * MINUTE <= DAY && k < |cs|
    requires i < |cs[k].shows| && !cs[k].shows[i].cancelled
    ensures Enabled(cs[k], Extend(i, minutes)) <==>
              1 + Sharing(Others(cs[k].shows, i), cs[k].shows[i].admitted.Extended(minutes)) <= cs[k].threshold
    ensures Apply(cs[k], Extend(i, minutes)).shows[i].admitted == cs[k].shows[i].admitted.Extended(minutes)
  {
    ThresholdHoldsAtEveryInstant(cs, steps, cap, k);
    EveryRunSellsTime(cs, steps, k);
    var shows := cs[k].shows;
    assert StoredFaithfully(shows[i]) && shows[i].admitted.Valid();
    AllHaveAdvance(Others(shows, i));
    CountableAreThoseThatShare(Others(shows, i), shows[i].admitted.Extended(minutes));
  }

  lemma {:induction false} SharingConcat(a: seq<Show>, b: seq<Show>, window: Window)
    ensures Sharing(a + b, window) == Sharing(a, window) + Sharing(b, window)
  {
    if b == [] {
      assert a + b == a;
    } else {
      SharingConcat(a, b[..|b| - 1], window);
      assert (a + b)[..|a + b| - 1] == a + b[..|b| - 1];
    }
  }

  lemma SharingSplit(shows: seq<Show>, i: nat, window: Window)
    requires i < |shows|
    ensures Sharing(shows, window) == Sharing(Others(shows, i), window)
            + (if !shows[i].cancelled && ShareAnInstant(shows[i].admitted, window) then 1 else 0)
  {
    assert shows == shows[..i] + ([shows[i]] + shows[i + 1..]);
    SharingConcat(shows[..i], [shows[i]] + shows[i + 1..], window);
    SharingConcat([shows[i]], shows[i + 1..], window);
    SharingConcat(shows[..i], shows[i + 1..], window);
    assert [shows[i]][..0] == [];
  }

  /** A show admitted counts at its instants, and one cancelled no more. */
  lemma AdmittedShowsCountUntilCancelled(c: Calendar, day: int, startTime: int, minutes: nat, advance: int, i: nat,
                                         window: Window)
    requires 0 < minutes && i < |c.shows|
    ensures var sold := Window(day * DAY + startTime, day * DAY + startTime + minutes * 60);
            Sharing(Apply(c, Admit(day, startTime, minutes, advance)).shows, window)
            == Sharing(c.shows, window) + (if ShareAnInstant(sold, window) then 1 else 0)
    ensures Sharing(Apply(c, Cancel(i)).shows, window) == Sharing(Others(c.shows, i), window)
  {
    var admitted := Apply(c, Admit(day, startTime, minutes, advance)).shows;
    SharingSplit(admitted, |c.shows|, window);
    assert Others(admitted, |c.shows|) == c.shows;
    var cancelled := Apply(c, Cancel(i)).shows;
    SharingSplit(cancelled, i, window);
    assert Others(cancelled, i) == Others(c.shows, i);
  }

  /** An extension compares with exactly the shows that have an advance. */
  lemma {:induction false} WithAdvanceIsExact(shows: seq<Show>, s: Show)
    ensures s in WithAdvance(shows) <==> s in shows && s.advance > 0
  {
    if shows != [] {
      WithAdvanceIsExact(shows[..|shows| - 1], s);
      assert shows == shows[..|shows| - 1] + [shows[|shows| - 1]];
    }
  }

  // ---------------------------------------------------------------- what escapes

  ghost predicate Respected(c: Calendar) {
    forall t :: OnAt(c.shows, t) <= c.threshold
  }

  // A day and a minute comes back as one minute, so it is not seen when another show is admitted over it.
  const LONG := Admit(0, 0, 1441, 1)
  const OVER := Admit(0, 3600, 60, 1)
  const LONG_SHOW := Show(0, 0, 60, 0, 1, false, Window(0, 86460))
  const OVER_SHOW := Show(0, 3600, 7200, 0, 1, false, Window(3600, 7200))

  lemma TheirWindows()
    ensures FromSchedule(0, 0, 1441) == Some(Window(0, 86460)) && StoredEnd(Window(0, 86460)) == 60
    ensures FromSchedule(0, 3600, 60) == Some(Window(3600, 7200)) && StoredEnd(Window(3600, 7200)) == 7200
    ensures Operating(LONG_SHOW) == Some(Window(0, 60))
  {
    EndWithinDay(0, 86460);
    EndWithinDay(0, 7200);
  }

  lemma CountableOne(s: Show)
    requires !s.cancelled && Operating(s).Some?
    ensures Countable([s]) == [Operating(s).value]
  {
    assert [s][..0] == [];
  }

  lemma NothingOverlaps(windows: seq<Window>, candidate: Window)
    requires |windows| <= 1 && (windows != [] ==> !windows[0].Overlaps(candidate))
    ensures Overlapping(windows, candidate) == 0
  {
    if windows != [] {
      assert windows[..0] == [];
    }
  }

  lemma BothOn(a: Show, b: Show, t: int)
    requires !a.cancelled && !b.cancelled && a.admitted.Contains(t) && b.admitted.Contains(t)
    ensures OnAt([a, b], t) == 2
  {
    assert [a, b][..1] == [a] && [a][..0] == [];
    assert OnAt([a], t) == 1;
  }

  /** With a threshold of one, a show that overlaps nothing that counts is admitted. */
  lemma UnseenIsAdmitted(c: Calendar, s: Step, w: Window)
    requires s.Admit? && TimeOfDay(s.startTime) && s.minutes > 0 && s.advance > 0 && c.threshold == 1
    requires FromSchedule(s.day, s.startTime, s.minutes) == Some(w) && StoredEnd(w) != s.startTime
    requires |Countable(c.shows)| <= 1 && (Countable(c.shows) != [] ==> !Countable(c.shows)[0].Overlaps(w))
    ensures Enabled(c, s)
    ensures Apply(c, s).shows == c.shows + [Show(s.day, s.startTime, StoredEnd(w), 0, s.advance, false, w)]
    ensures Apply(c, s).threshold == 1
  {
    NothingOverlaps(Countable(c.shows), w);
  }

  /** A run from an empty calendar with a threshold of one ends with two shows on at the same instant. */
  lemma LongShowsEscapeTheThreshold(cap: nat) returns (cs: seq<Calendar>, steps: seq<Step>)
    requires cap * MINUTE > DAY
    ensures CappedRun(cs, steps, cap) && |steps| == 2 && !Respected(cs[2])
  {
    var empty, one, two := Calendar([], 1), Calendar([LONG_SHOW], 1), Calendar([LONG_SHOW, OVER_SHOW], 1);
    TheirWindows();
    UnseenIsAdmitted(empty, LONG, Window(0, 86460));
    CountableOne(LONG_SHOW);
    UnseenIsAdmitted(one, OVER, Window(3600, 7200));
    assert Apply(empty, LONG).shows == one.shows && Apply(one, OVER).shows == two.shows;
    cs, steps := [empty, one, two], [LONG, OVER];
    BothOn(LONG_SHOW, OVER_SHOW, 3600);
    assert OnAt(two.shows, 3600) > two.threshold;
  }

  /** Every run of packages of at most `cap` minutes respects the threshold if and only if that is at most a day. */
  lemma ThresholdHoldsExactlyUpToADay(cap: nat)
    ensures (forall cs: seq<Calendar>, steps: seq<Step>, k: nat ::
               CappedRun(cs, steps, cap) && k < |cs| ==> Respected(cs[k]))
            <==> cap * MINUTE <= DAY
  {
    if cap * MINUTE <= DAY {
      forall cs: seq<Calendar>, steps: seq<Step>, k: nat | CappedRun(cs, steps, cap) && k < |cs|
        ensures Respected(cs[k])
      {
        ThresholdHoldsAtEveryInstant(cs, steps, cap, k);
      }
    } else {
      var cs, steps := LongShowsEscapeTheThreshold(cap);
      assert !Respected(cs[2]);
    }
  }
}
