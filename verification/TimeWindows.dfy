/**
 * Half-open time windows `[start, end)` in integer seconds, and how a show's window survives being stored
 * as a date with a start and an end time of day.
 */
module TimeWindows {
  import opened Common

  const DAY := 86400
  const MINUTE := 60

  datatype Window = Window(start: int, end: int) {
    predicate Valid() {
      start < end
    }

    predicate Overlaps(other: Window) {
      start < other.end && other.start < end
    }

    predicate Contains(t: int) {
      start <= t < end
    }

    /** Whole minutes between the end of this window and the start of `other`, rounded down. */
    function GapMinutesBefore(other: Window): int {
      (other.start - end) / MINUTE
    }

    function Extended(minutes: int): Window {
      Window(start, end + minutes * MINUTE)
    }
  }

  ghost predicate ShareAnInstant(a: Window, b: Window) {
    exists t :: a.Contains(t) && b.Contains(t)
  }

  /** Two windows overlap exactly when they share an instant; windows that touch do not. */
  lemma OverlapMeansSharedInstant(a: Window, b: Window)
    requires a.Valid() && b.Valid()
    ensures a.Overlaps(b) <==> ShareAnInstant(a, b)
  {
    if a.Overlaps(b) {
      var t := Max(a.start, b.start);
      assert a.Contains(t) && b.Contains(t);
    }
  }

  /** A day number and a time of day. */
  function Instant(day: int, time: int): int {
    day * DAY + time
  }

  predicate TimeOfDay(time: int) {
    0 <= time < DAY
  }

  function FromSchedule(day: int, startTime: int, minutes: int): Option<Window> {
    if minutes <= 0 then None
    else Some(Window(Instant(day, startTime), Instant(day, startTime) + minutes * MINUTE))
  }

  /** The time of day at which a window ends: all that is stored of its end. */
  function StoredEnd(w: Window): int {
    w.end % DAY
  }

  /** The window rebuilt from what is stored: an end before the start falls on the next day. */
  function FromStored(day: int, startTime: int, endTime: int): Option<Window> {
    if endTime == startTime then None
    else if endTime < startTime then Some(Window(Instant(day, startTime), Instant(day + 1, endTime)))
    else Some(Window(Instant(day, startTime), Instant(day, endTime)))
  }

  /** Storing and rebuilding gives the same window, midnight crossings included, exactly for shows shorter
      than a day: a show of a whole day cannot be rebuilt and a longer one comes back shorter. */
  lemma RebuiltExactlyUnderADay(day: int, startTime: int, minutes: int)
    requires TimeOfDay(startTime) && minutes > 0
    ensures var w := FromSchedule(day, startTime, minutes).value;
            FromStored(day, startTime, StoredEnd(w)) == Some(w) <==> minutes * MINUTE < DAY
    ensures var start, length := day * DAY + startTime, minutes * 60;
            FromStored(day, startTime, StoredEnd(FromSchedule(day, startTime, minutes).value)) ==
            if length % DAY == 0 then None else Some(Window(start, start + length % DAY))
  {
    var length := minutes * MINUTE;
    var w := FromSchedule(day, startTime, minutes).value;
    EndWithinDay(day, startTime + length);
  }

  lemma EndWithinDay(day: int, offset: int)
    requires offset >= 0
    ensures Instant(day, offset) % DAY == offset % DAY
    ensures offset < DAY ==> offset % DAY == offset
    ensures DAY <= offset < 2 * DAY ==> offset % DAY == offset - DAY
  {
  }
}
