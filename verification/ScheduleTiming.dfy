/** Recurrence arithmetic (cowork/schedule_timing.py): the next occurrence of a
    cadence in a time zone, and the two loops that fast-forward over missed ones. */
module ScheduleTiming {
  import opened Common
  import Occurrences

  const HOUR := 3600
  const DAY := 86400

  datatype Cadence = Once | Hourly | Daily | Weekly | Weekdays

  predicate Recurring(c: Cadence) {
    c != Once
  }

  /** A zone as the code uses it: the offset in force at an instant, whether that
      instant's wall clock is the second of two readings, and the offset a wall
      clock reading is taken to have. */
  datatype Zone = Zone(offsetAt: Time -> int, fold: Time -> bool, offsetOf: (int, bool) -> int)

  function Local(z: Zone, at: Time): int {
    at + z.offsetAt(at)
  }

  function DateOf(local: int): int {
    local / DAY
  }

  function ClockOf(local: int): int {
    local % DAY
  }

  /** Monday is 0; day 0 was a Thursday. */
  function Weekday(date: int): int {
    (date + 3) % 7
  }

  function NextWorkday(date: int): int {
    if Weekday(date + 1) < 5 then date + 1
    else if Weekday(date + 2) < 5 then date + 2
    else date + 3
  }

  function NextDate(c: Cadence, date: int): int {
    match c
    case Weekdays => NextWorkday(date)
    case Weekly => date + 7
    case _ => date + 1
  }

  /** The wall clock reading the next occurrence aims for. */
  function NextLocal(c: Cadence, at: Time, z: Zone): int {
    NextDate(c, DateOf(Local(z, at))) * DAY + ClockOf(Local(z, at))
  }

  function AdvanceOccurrence(c: Cadence, at: Time, z: Zone): Time
    requires Recurring(c)
  {
    if c == Hourly then at + HOUR
    else NextLocal(c, at, z) - z.offsetOf(NextLocal(c, at, z), z.fold(at))
  }

  // ---------------------------------------------------------------- workdays

  lemma NextWorkdayIsLeast(date: int)
    ensures date < NextWorkday(date) && Weekday(NextWorkday(date)) < 5
    ensures forall d :: date < d < NextWorkday(date) ==> Weekday(d) >= 5
  {
  }

  /** The search the code does: step a day at a time until it lands on a workday. */
  method FindWorkday(date: int) returns (next: int)
    ensures next == NextWorkday(date)
    ensures Weekday(next) < 5 && forall d :: date < d < next ==> Weekday(d) >= 5
  {
    next := date + 1;
    while Weekday(next) >= 5
      invariant date < next <= NextWorkday(date)
      invariant forall d :: date < d < next ==> Weekday(d) >= 5
      decreases NextWorkday(date) - next
    {
      next := next + 1;
    }
    NextWorkdayIsLeast(date);
  }

  // ---------------------------------------------------------------- when a step moves forward

  function DaysAhead(c: Cadence, at: Time, z: Zone): int {
    NextDate(c, DateOf(Local(z, at))) - DateOf(Local(z, at))
  }

  /** A calendar step is strictly later exactly when the offset grows by less than the
      days it spans; a zone whose offsets never differ by a day always steps forward. */
  lemma StepsForwardExactlyWhen(c: Cadence, at: Time, z: Zone)
    requires Recurring(c) && c != Hourly
    ensures at < AdvanceOccurrence(c, at, z) <==>
              z.offsetOf(NextLocal(c, at, z), z.fold(at)) - z.offsetAt(at) < DaysAhead(c, at, z) * DAY
    ensures DaysAhead(c, at, z) >= 1
  {
    var local := Local(z, at);
    assert local == DateOf(local) * DAY + ClockOf(local);
    assert NextLocal(c, at, z) - local == DaysAhead(c, at, z) * DAY;
  }

  /** The wall clock time is kept exactly when the reading aimed for exists. */
  lemma WallClockKeptExactlyWhen(c: Cadence, at: Time, z: Zone)
    requires Recurring(c) && c != Hourly
    ensures var next := AdvanceOccurrence(c, at, z);
      Local(z, next) == NextLocal(c, at, z) <==> z.offsetAt(next) == z.offsetOf(NextLocal(c, at, z), z.fold(at))
    ensures ClockOf(NextLocal(c, at, z)) == ClockOf(Local(z, at))
    ensures DateOf(NextLocal(c, at, z)) == NextDate(c, DateOf(Local(z, at)))
  {
    var date, clock := NextDate(c, DateOf(Local(z, at))), ClockOf(Local(z, at));
    assert 0 <= clock < DAY;
    DivModOf(date, clock);
  }

  lemma DivModOf(q: int, r: int)
    requires 0 <= r < DAY
    ensures (q * DAY + r) / DAY == q && (q * DAY + r) % DAY == r
  {
  }

  // ---------------------------------------------------------------- the calendar

  /** Saturdays and Sundays, counted from the first ones of 1970, days 2 and 3. */
  predicate Weekend(date: int) {
    date % 7 == 2 || date % 7 == 3
  }

  /** Day 4, the fifth of January 1970, was a Monday, and the weekdays follow each other in turn. */
  lemma WeekdaysInTurn(date: int)
    ensures Weekday(4) == 0
    ensures Weekday(date + 1) == if Weekday(date) == 6 then 0 else Weekday(date) + 1
    ensures Weekday(date + 7) == Weekday(date)
    ensures Weekday(date) >= 5 <==> Weekend(date)
  {
  }

  /** A local reading is a time of day on a date. */
  lemma DateAndClock(local: int)
    ensures local == DateOf(local) * 86400 + ClockOf(local) && 0 <= ClockOf(local) < 86400
  {
  }

  /** The step of each cadence: an hour on, or the same time of day on the next date, a week on, or on the first
      later date from Monday to Friday. */
  lemma NextOccurrence(c: Cadence, at: Time, z: Zone)
    requires Recurring(c)
    ensures c == Hourly ==> AdvanceOccurrence(c, at, z) == at + 3600
    ensures c != Hourly ==>
      var next := AdvanceOccurrence(c, at, z);
      var aimed := NextLocal(c, at, z);
      && Follows(c, DateOf(Local(z, at)), DateOf(aimed))
      && ClockOf(aimed) == ClockOf(Local(z, at))
      && (z.offsetAt(next) == z.offsetOf(aimed, z.fold(at)) ==>
            && Follows(c, DateOf(Local(z, at)), DateOf(Local(z, next)))
            && ClockOf(Local(z, next)) == ClockOf(Local(z, at)))
  {
    if c != Hourly {
      WallClockKeptExactlyWhen(c, at, z);
      var date := DateOf(Local(z, at));
      if c == Weekdays {
        NextWorkdayIsLeast(date);
        WeekdaysInTurn(NextWorkday(date));
        forall d | date < d < NextWorkday(date) ensures Weekend(d) {
          WeekdaysInTurn(d);
        }
      }
    }
  }

  /** `next` is the date of this cadence that comes after `date`. */
  ghost predicate Follows(c: Cadence, date: int, next: int) {
    match c
    case Daily => next == date + 1
    case Weekly => next == date + 7
    case Weekdays => date < next && !Weekend(next) && forall d :: date < d < next ==> Weekend(d)
    case _ => false
  }

  // ---------------------------------------------------------------- occurrences

  ghost predicate StepsForward(c: Cadence, z: Zone) {
    Recurring(c) && forall at :: at < AdvanceOccurrence(c, at, z)
  }

  /** One step of the recurrence, as a function of the instant alone. */
  function Stepping(c: Cadence, z: Zone): Time -> Time
    requires Recurring(c)
  {
    (at: Time) => AdvanceOccurrence(c, at, z)
  }

  lemma SteppingForward(c: Cadence, z: Zone)
    requires StepsForward(c, z)
    ensures Occurrences.Forward(Stepping(c, z))
  {
  }

  function Occurrence(c: Cadence, z: Zone, start: Time, n: nat): Time
    requires Recurring(c)
  {
    Occurrences.Nth(Stepping(c, z), start, n)
  }

  function Missed(c: Cadence, z: Zone, cursor: Time, now: Time): nat
    requires StepsForward(c, z)
  {
    SteppingForward(c, z);
    Occurrences.Due(Stepping(c, z), cursor, now)
  }

  function NextFuture(c: Cadence, z: Zone, cursor: Time, now: Time): Time
    requires StepsForward(c, z)
  {
    SteppingForward(c, z);
    Occurrences.FirstAfter(Stepping(c, z), cursor, now)
  }

  /** The fast-forward lands on the occurrence whose number is the missed count. */
  lemma NextFutureIsOccurrence(c: Cadence, z: Zone, start: Time, now: Time)
    requires StepsForward(c, z)
    ensures NextFuture(c, z, start, now) == Occurrence(c, z, start, Missed(c, z, start, now))
    ensures now < NextFuture(c, z, start, now)
    ensures start <= NextFuture(c, z, start, now)
  {
    SteppingForward(c, z);
    Occurrences.FirstAfterIsNth(Stepping(c, z), start, now);
  }

  /** The missed occurrences are exactly those at or before now, and the fast-forward
      lands on the least one after it. */
  lemma MissedCountsOverdue(c: Cadence, z: Zone, start: Time, now: Time, n: nat)
    requires StepsForward(c, z)
    ensures Occurrence(c, z, start, n) <= now <==> n < Missed(c, z, start, now)
    ensures now < Occurrence(c, z, start, n) ==> NextFuture(c, z, start, now) <= Occurrence(c, z, start, n)
  {
    SteppingForward(c, z);
    Occurrences.DueCounts(Stepping(c, z), start, now, n);
  }

  lemma MissedInStrides(c: Cadence, z: Zone, start: Time, now: Time, stride: int)
    requires StepsForward(c, z) && forall at :: AdvanceOccurrence(c, at, z) == at + stride
    ensures var m := Missed(c, z, start, now);
      && NextFuture(c, z, start, now) == start + m * stride
      && now - start < m * stride
      && (m > 0 ==> (m - 1) * stride <= now - start)
      && (m == 0 <==> start > now)
  {
    SteppingForward(c, z);
    Occurrences.DueInStrides(Stepping(c, z), start, now, stride);
  }

  /** Overdue hourly slots have a closed form. */
  lemma HourlyMissed(z: Zone, start: Time, now: Time)
    ensures StepsForward(Hourly, z)
    ensures Missed(Hourly, z, start, now) == (if start > now then 0 else (now - start) / HOUR + 1)
    ensures NextFuture(Hourly, z, start, now) == start + HOUR * Missed(Hourly, z, start, now)
  {
    MissedInStrides(Hourly, z, start, now, HOUR);
  }

  lemma FixedOffsetStride(c: Cadence, z: Zone, offset: int, at: Time)
    requires c == Daily || c == Weekly
    requires z.offsetAt(at) == offset
    requires forall local, fold :: z.offsetOf(local, fold) == offset
    ensures AdvanceOccurrence(c, at, z) == at + if c == Daily then DAY else 7 * DAY
  {
    var local := Local(z, at);
    assert local == DateOf(local) * DAY + ClockOf(local);
    var second := z.fold(at);
    assert second == true || second == false;
    assert z.offsetOf(NextLocal(c, at, z), second) == offset;
  }

  /** In a zone with one offset, daily and weekly schedules step in equal strides too. */
  lemma FixedOffsetMissed(c: Cadence, z: Zone, offset: int, start: Time, now: Time)
    requires c == Daily || c == Weekly
    requires forall at :: z.offsetAt(at) == offset
    requires forall local, fold :: z.offsetOf(local, fold) == offset
    ensures StepsForward(c, z)
    ensures Missed(c, z, start, now) ==
      if start > now then 0 else (now - start) / (if c == Daily then DAY else 7 * DAY) + 1
  {
    forall at ensures AdvanceOccurrence(c, at, z) == at + if c == Daily then DAY else 7 * DAY {
      FixedOffsetStride(c, z, offset, at);
    }
    if c == Daily {
      MissedInStrides(c, z, start, now, DAY);
    } else {
      MissedInStrides(c, z, start, now, 7 * DAY);
    }
  }

  // ---------------------------------------------------------------- the two loops

  /** Fast-forward to the first occurrence after now. */
  method NextFutureOccurrence(c: Cadence, z: Zone, nextRunAt: Time, now: Time) returns (cursor: Time)
    requires StepsForward(c, z)
    ensures cursor == NextFuture(c, z, nextRunAt, now)
    ensures now < cursor
  {
    cursor := nextRunAt;
    while cursor <= now
      invariant NextFuture(c, z, cursor, now) == NextFuture(c, z, nextRunAt, now)
      decreases now - cursor
    {
      cursor := AdvanceOccurrence(c, cursor, z);
    }
  }

  /** Count overdue occurrences and fast-forward past them. */
  method CountMissedOccurrences(c: Cadence, z: Zone, nextRunAt: Time, now: Time) returns (missed: nat, cursor: Time)
    requires StepsForward(c, z)
    ensures missed == Missed(c, z, nextRunAt, now)
    ensures cursor == NextFuture(c, z, nextRunAt, now) == Occurrence(c, z, nextRunAt, missed)
    ensures forall n: nat :: Occurrence(c, z, nextRunAt, n) <= now <==> n < missed
  {
    missed, cursor := 0, nextRunAt;
    while cursor <= now
      invariant NextFuture(c, z, cursor, now) == NextFuture(c, z, nextRunAt, now)
      invariant missed + Missed(c, z, cursor, now) == Missed(c, z, nextRunAt, now)
      decreases now - cursor
    {
      missed := missed + 1;
      cursor := AdvanceOccurrence(c, cursor, z);
    }
    NextFutureIsOccurrence(c, z, nextRunAt, now);
    forall n: nat ensures Occurrence(c, z, nextRunAt, n) <= now <==> n < missed {
      MissedCountsOverdue(c, z, nextRunAt, now, n);
    }
  }
}
