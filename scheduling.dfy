/** The next-run computation behind set_schedule. Instants are whole seconds
    since 1 January 1970; every day is 86400 seconds long and the week starts on
    Sunday. The computation works in blog time, the display timezone in which
    the user picked the day and time of day. */
module Scheduling {

  import opened Wrappers

  const Day: int := 86400
  const Week: int := 7 * Day

  /** A day of the week: 0 is Sunday, 1 Monday, ..., 6 Saturday. */
  type Weekday = d: int | 0 <= d < 7

  /** The time of day a backup is asked to run at, already read from its
      "HH:MM" spelling. */
  datatype TimeOfDay = TimeOfDay(hour: nat, minute: nat)

  predicate ValidTime(time: TimeOfDay) {
    time.hour < 24 && time.minute < 60
  }

  function SecondsIntoDay(time: TimeOfDay): nat {
    time.hour * 3600 + time.minute * 60
  }

  /** Midnight of the day instant t falls on. */
  function StartOfDay(t: int): int {
    t - t % Day
  }

  /** The day of the week of instant t; 1 January 1970 was a Thursday. */
  function WeekdayOf(t: int): Weekday {
    (t / Day + 4) % 7
  }

  const Hour: int := 3600

  /** The start of the hour instant t falls in. */
  function StartOfHour(t: int): int {
    t - t % Hour
  }

  /** The system instant the scheduler is given for a run at blog instant
      `run`, seen at system time `now` and blog time `blogNow`: the run's
      distance from the start of the current blog hour, counted from the start
      of the current system hour. */
  function SystemInstant(run: int, now: int, blogNow: int): int {
    StartOfHour(now) + (run - StartOfHour(blogNow))
  }

  /** The first run of a backup asked for at `time` on `day` (any day when
      `day` is None), seen at blog time `now`. The candidate is today at `time`;
      with a day it is moved forward to the next such weekday, today included.
      A candidate that is not after `now` (equal counts as passed) is moved one
      week on when a day was asked for and one day on when none was. */
  function NextRun(day: Option<Weekday>, time: TimeOfDay, now: int): int {
    var candidate := StartOfDay(now) + SecondsIntoDay(time);
    match day
    case None =>
      if candidate <= now then candidate + Day else candidate
    case Some(d) =>
      var aligned := candidate + ((d - WeekdayOf(now)) % 7) * Day;
      if aligned <= now then aligned + Week else aligned
  }

  /** An instant at the requested time of day, on the requested weekday if any. */
  predicate Matches(day: Option<Weekday>, time: TimeOfDay, t: int) {
    t % Day == SecondsIntoDay(time) && (day.Some? ==> WeekdayOf(t) == day.value)
  }

  // ---------------------------------------------------------------------------
  // Arithmetic on days

  lemma DayParts(q: int, s: int)
    requires 0 <= s < Day
    ensures (q * Day + s) / Day == q && (q * Day + s) % Day == s
  {
  }

  /** Adding k to a day number moves its weekday by k. */
  lemma WeekdayShift(x: int, k: int, d: int)
    requires 0 <= d < 7 && k == (d - x % 7) % 7
    ensures (x + k) % 7 == d
  {
  }

  /** Two day numbers with the same weekday are a whole number of weeks apart. */
  lemma SameWeekday(x: int, y: int)
    requires x % 7 == y % 7
    ensures (x - y) % 7 == 0
  {
  }

  // ---------------------------------------------------------------------------
  // What NextRun promises

  /** The run is always strictly in the future, whatever the requested time. */
  lemma NextRunIsFuture(day: Option<Weekday>, time: TimeOfDay, now: int)
    ensures NextRun(day, time, now) > now
  {
  }

  /** The day number of the run: the run is at the requested time of that
      day, which is on the requested weekday, and the previous eligible day
      (the day before, or the week before when a weekday is asked) at that time
      is not after now. */
  lemma RunDayNumber(day: Option<Weekday>, time: TimeOfDay, now: int) returns (qr: int)
    requires ValidTime(time)
    ensures NextRun(day, time, now) == qr * Day + SecondsIntoDay(time)
    ensures now < qr * Day + SecondsIntoDay(time)
    ensures day.None? ==> (qr - 1) * Day + SecondsIntoDay(time) <= now
    ensures day.Some? ==> (qr + 4) % 7 == day.value && (qr - 7) * Day + SecondsIntoDay(time) <= now
  {
    var q, s := now / Day, SecondsIntoDay(time);
    assert StartOfDay(now) == q * Day;
    match day {
      case None =>
        qr := if q * Day + s <= now then q + 1 else q;
      case Some(d) =>
        var k := (d - WeekdayOf(now)) % 7;
        WeekdayShift(q + 4, k, d);
        qr := if (q + k) * Day + s <= now then q + k + 7 else q + k;
    }
  }

  /** No instant after now matching the request comes before the run. */
  lemma NoEarlierMatch(day: Option<Weekday>, time: TimeOfDay, now: int, qr: int, t: int)
    requires ValidTime(time)
    requires day.None? ==> (qr - 1) * Day + SecondsIntoDay(time) <= now
    requires day.Some? ==> (qr + 4) % 7 == day.value && (qr - 7) * Day + SecondsIntoDay(time) <= now
    requires now < t && Matches(day, time, t)
    ensures qr * Day + SecondsIntoDay(time) <= t
  {
    var qt, s := t / Day, SecondsIntoDay(time);
    assert t == qt * Day + s;
    if day.Some? {
      assert qt > qr - 7;
      SameWeekday(qt + 4, qr + 4);
      WholeWeeksAhead(qt - qr);
    } else {
      assert qt > qr - 1;
    }
  }

  /** A whole number of weeks that is more than a week back is none back. */
  lemma WholeWeeksAhead(x: int)
    requires x > -7 && x % 7 == 0
    ensures x >= 0
  {
  }

  /** The run is at the requested time of day and on the requested weekday, no
      further away than one day (no weekday asked) or one week (weekday asked),
      and no instant strictly between now and the run matches the request. */
  lemma NextRunIsFirstMatch(day: Option<Weekday>, time: TimeOfDay, now: int)
    requires ValidTime(time)
    ensures var r := NextRun(day, time, now);
      now < r && Matches(day, time, r) &&
      r - now <= (if day.None? then Day else Week) &&
      forall t :: now < t && Matches(day, time, t) ==> r <= t
  {
    var qr := RunDayNumber(day, time, now);
    DayParts(qr, SecondsIntoDay(time));
    forall t | now < t && Matches(day, time, t)
      ensures NextRun(day, time, now) <= t
    {
      NoEarlierMatch(day, time, now, qr, t);
    }
  }

  /** A blog clock a whole number of hours away from the system clock: the
      scheduler gets the run shifted back by exactly the offset. */
  lemma {:induction false} SystemInstantWholeHours(run: int, now: int, offset: int)
    requires offset % Hour == 0
    ensures SystemInstant(run, now, now + offset) == run - offset
  {
    var m := offset / Hour;
    assert offset == m * Hour;
    assert (now + m * Hour) % Hour == now % Hour;
  }

  /** A run after the blog clock reaches the scheduler after the start of the
      current system hour, whatever the offset. */
  lemma SystemInstantAfterHourStart(run: int, now: int, blogNow: int)
    requires run > blogNow
    ensures SystemInstant(run, now, blogNow) > StartOfHour(now)
  {
  }

  /** A blog clock on a whole hour of its day is on a whole hour. */
  lemma {:induction false} OnTheHour(t: int, h: nat)
    requires t % Day == h * Hour
    ensures StartOfHour(t) == t
  {
    var q := t / Day;
    assert t == q * Day + h * Hour;
    assert t == (q * 24 + h) * Hour;
  }

  // ---------------------------------------------------------------------------
  // The three situations the schedule tests set up

  /** Today's weekday at the current time of day: the run is a week away. */
  lemma TimeReachedOnRequestedDay(time: TimeOfDay, now: int)
    requires ValidTime(time) && now % Day == SecondsIntoDay(time)
    ensures NextRun(Some(WeekdayOf(now)), time, now) == now + Week
  {
  }

  /** No weekday and the current time of day: the run is a day away. */
  lemma TimeReachedNoDay(time: TimeOfDay, now: int)
    requires ValidTime(time) && now % Day == SecondsIntoDay(time)
    ensures NextRun(None, time, now) == now + Day
  {
  }

  /** A time of day still ahead today: the run is today, with or without the
      weekday asked for being today's. */
  lemma TimeAheadToday(time: TimeOfDay, now: int)
    requires ValidTime(time) && now % Day < SecondsIntoDay(time)
    ensures NextRun(Some(WeekdayOf(now)), time, now) == StartOfDay(now) + SecondsIntoDay(time)
    ensures NextRun(None, time, now) == StartOfDay(now) + SecondsIntoDay(time)
  {
  }

}
