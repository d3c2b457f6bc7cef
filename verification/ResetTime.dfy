/**
 * From the wall-clock fields of a rate-limit message to the instant of the reset.
 *
 * The zone has a fixed offset. Instants are microseconds; local midnight of 1 January of year 1 is one day after 0.
 */
module ResetTime {
  import opened Prelude

  const MIN_YEAR: int := 1
  const MAX_YEAR: int := 9999
  const MINUTE: int := 60_000_000
  const HOUR: int := 3_600_000_000
  const DAY: int := 86_400_000_000

  // ---------------------------------------------------------------------------
  // The proleptic Gregorian calendar
  // ---------------------------------------------------------------------------

  predicate Leap(y: int) {
    y % 4 == 0 && (y % 100 != 0 || y % 400 == 0)
  }

  function DaysInMonth(y: int, m: int): (d: int)
    ensures 1 <= m <= 12 ==> 28 <= d <= 31
  {
    if m == 2 then (if Leap(y) then 29 else 28)
    else if m in {4, 6, 9, 11} then 30
    else 31
  }

  function YearLength(y: int): int {
    if Leap(y) then 366 else 365
  }

  function DaysBeforeYear(y: int): int
    decreases y
  {
    if y <= MIN_YEAR then 0 else DaysBeforeYear(y - 1) + YearLength(y - 1)
  }

  function DaysBeforeMonth(y: int, m: int): int
    decreases m
  {
    if m <= 1 then 0 else DaysBeforeMonth(y, m - 1) + DaysInMonth(y, m - 1)
  }

  predicate ValidDate(y: int, m: int, d: int) {
    MIN_YEAR <= y <= MAX_YEAR && 1 <= m <= 12 && 1 <= d <= DaysInMonth(y, m)
  }

  function Ordinal(y: int, m: int, d: int): int {
    DaysBeforeYear(y) + DaysBeforeMonth(y, m) + d
  }

  datatype Moment = Moment(year: int, month: int, day: int, hour: int, minute: int, second: int, micro: int)

  predicate ValidMoment(t: Moment) {
    && ValidDate(t.year, t.month, t.day)
    && 0 <= t.hour <= 23 && 0 <= t.minute <= 59 && 0 <= t.second <= 59 && 0 <= t.micro <= 999_999
  }

  function TimeOfDay(t: Moment): int {
    t.hour * HOUR + t.minute * MINUTE + t.second * 1_000_000 + t.micro
  }

  function Instant(t: Moment): int {
    Ordinal(t.year, t.month, t.day) * DAY + TimeOfDay(t)
  }

  const LAST_INSTANT: int := Instant(Moment(MAX_YEAR, 12, 31, 23, 59, 59, 999_999))

  /** Instants a datetime can represent. */
  predicate InRange(instant: int) {
    DAY <= instant <= LAST_INSTANT
  }

  // ---------------------------------------------------------------------------
  // The parser, after the regular expression has delivered its groups
  // ---------------------------------------------------------------------------

  datatype Meridiem = NoMeridiem | AM | PM

  /** `date`: month and day, if the message names them. */
  datatype Request = Request(date: Option<(int, int)>, hour: nat, minute: nat, meridiem: Meridiem)

  function Hour24(hour: nat, meridiem: Meridiem): nat {
    var hour := if meridiem.PM? && hour < 12 then hour + 12 else hour;
    if meridiem.AM? && hour == 12 then 0 else hour
  }

  predicate ValidTime(r: Request) {
    Hour24(r.hour, r.meridiem) <= 23 && r.minute <= 59
  }

  function AtTime(y: int, m: int, d: int, r: Request): Moment {
    Moment(y, m, d, Hour24(r.hour, r.meridiem), r.minute, 0, 0)
  }

  /** The local instant the parser settles on. */
  function LocalReset(r: Request, now: Moment): Option<int> {
    if !ValidTime(r) then None
    else
      match r.date
      case Some((month, day)) =>
        if !ValidDate(now.year, month, day) then None
        else
          var reset := Instant(AtTime(now.year, month, day, r));
          if reset <= Instant(now) then
            if !ValidDate(now.year + 1, month, day) then None
            else Some(Instant(AtTime(now.year + 1, month, day, r)))
          else Some(reset)
      case None =>
        var reset := Instant(AtTime(now.year, now.month, now.day, r));
        if reset <= Instant(now) then
          if !InRange(reset + DAY) then None else Some(reset + DAY)
        else Some(reset)
  }

  /** The same instant in UTC, for a zone that is `offset` ahead of it. */
  function ParseReset(r: Request, now: Moment, offset: int): Option<int> {
    match LocalReset(r, now)
    case None => None
    case Some(local) => if InRange(local - offset) then Some(local - offset) else None
  }

  // ---------------------------------------------------------------------------
  // Calendar order
  // ---------------------------------------------------------------------------

  lemma Div4Step(y: int)
    ensures y / 4 == (y - 1) / 4 + if y % 4 == 0 then 1 else 0
  {
  }

  lemma Div100Step(y: int)
    ensures y / 100 == (y - 1) / 100 + if y % 100 == 0 then 1 else 0
  {
  }

  lemma Div400Step(y: int)
    ensures y / 400 == (y - 1) / 400 + if y % 400 == 0 then 1 else 0
  {
  }

  lemma CenturiesAreFourfold(y: int)
    ensures y % 400 == 0 ==> y % 100 == 0
    ensures y % 100 == 0 ==> y % 4 == 0
  {
  }

  /** Counting year by year comes to 365 days a year and a leap day every 4, but not every 100, but every 400 years. */
  lemma {:induction false} DayCount(y: int)
    requires y >= MIN_YEAR
    ensures DaysBeforeYear(y) == (y - 1) * 365 + (y - 1) / 4 - (y - 1) / 100 + (y - 1) / 400
    decreases y
  {
    if y > MIN_YEAR {
      DayCount(y - 1);
      Div4Step(y - 1);
      Div100Step(y - 1);
      Div400Step(y - 1);
      CenturiesAreFourfold(y - 1);
    }
  }

  lemma {:induction false} YearsOrdered(y: int, z: int)
    requires MIN_YEAR <= y < z
    ensures DaysBeforeYear(y) + YearLength(y) <= DaysBeforeYear(z)
    decreases z - y
  {
    if y + 1 < z {
      YearsOrdered(y, z - 1);
    }
  }

  lemma {:induction false} MonthsOrdered(y: int, m: int, n: int)
    requires 1 <= m < n <= 13
    ensures DaysBeforeMonth(y, m) + DaysInMonth(y, m) <= DaysBeforeMonth(y, n)
    decreases n - m
  {
    if m + 1 < n {
      MonthsOrdered(y, m, n - 1);
    }
  }

  /** The day of the year on which each month begins, in common years; a leap day moves March and what follows. */
  const MONTH_STARTS := [0, 31, 59, 90, 120, 151, 181, 212, 243, 273, 304, 334]

  lemma MonthsBegin(y: int, m: int)
    requires 1 <= m <= 12
    ensures DaysBeforeMonth(y, m) == MONTH_STARTS[m - 1] + if m > 2 && Leap(y) then 1 else 0
    ensures Leap(y) <==> (y % 4 == 0 && y % 100 != 0) || y % 400 == 0
  {
    CenturiesAreFourfold(y);
    assert DaysBeforeMonth(y, 3) == 59 + if Leap(y) then 1 else 0;
    assert DaysBeforeMonth(y, 6) == 151 + if Leap(y) then 1 else 0;
    assert DaysBeforeMonth(y, 9) == 243 + if Leap(y) then 1 else 0;
  }

  /** The epoch of 1970 is day 719163, and the last day of the calendar is day 3652059. */
  lemma KnownDays()
    ensures Ordinal(1970, 1, 1) == 719_163
    ensures Ordinal(MAX_YEAR, 12, 31) == 3_652_059
  {
    DayCount(1970);
    DayCount(MAX_YEAR);
    MonthsBegin(1970, 1);
    MonthsBegin(MAX_YEAR, 12);
  }

  /** The days that there are. */
  lemma DatesExactly(y: int, m: int, d: int)
    ensures ValidDate(y, m, d) <==>
            && 1 <= y <= 9999 && 1 <= m <= 12 && 1 <= d
            && d <= (if m == 12 then 31 else MONTH_STARTS[m] - MONTH_STARTS[m - 1]) + if m == 2 && Leap(y) then 1 else 0
  {
  }

  /** The clock leaves no gap at midnight. */
  lemma MidnightFollows(y: int, m: int, d: int)
    ensures Instant(Moment(y, m, d, 23, 59, 59, 999_999)) + 1 == Instant(Moment(y, m, d + 1, 0, 0, 0, 0))
    ensures Instant(Moment(y, m, d, 0, 0, 1, 0)) == Instant(Moment(y, m, d, 0, 0, 0, 0)) + 1_000_000
  {
  }

  predicate DateBefore(y: int, m: int, d: int, y': int, m': int, d': int) {
    y < y' || (y == y' && (m < m' || (m == m' && d < d')))
  }

  /** Day numbers follow the calendar. */
  lemma OrdinalOrdered(y: int, m: int, d: int, y': int, m': int, d': int)
    requires ValidDate(y, m, d) && ValidDate(y', m', d')
    requires y < y' || (y == y' && m < m') || (y == y' && m == m' && d < d')
    ensures Ordinal(y, m, d) < Ordinal(y', m', d')
  {
    if y < y' {
      YearsOrdered(y, y');
      MonthsOrdered(y, m, 13);
      MonthsNonNegative(y', m');
    } else if m < m' {
      MonthsOrdered(y, m, m');
    }
  }

  lemma {:induction false} MonthsNonNegative(y: int, m: int)
    requires m <= 13
    ensures DaysBeforeMonth(y, m) >= 0
    decreases m
  {
    if m > 1 {
      MonthsNonNegative(y, m - 1);
    }
  }

  lemma TimeOfDayBounds(t: Moment)
    requires ValidMoment(t)
    ensures 0 <= TimeOfDay(t) < DAY
  {
  }

  /** A moment on an earlier date is an earlier instant. */
  lemma InstantOrdered(t: Moment, u: Moment)
    requires ValidMoment(t) && ValidMoment(u) && DateBefore(t.year, t.month, t.day, u.year, u.month, u.day)
    ensures Instant(t) < Instant(u)
  {
    OrdinalOrdered(t.year, t.month, t.day, u.year, u.month, u.day);
    TimeOfDayBounds(t);
    TimeOfDayBounds(u);
  }

  /** The same date one year on is at most 366 days later. */
  lemma NextYear(y: int, m: int, d: int)
    requires y >= MIN_YEAR && 1 <= m <= 12
    ensures Ordinal(y + 1, m, d) - Ordinal(y, m, d) <= 366
  {
    MonthShift(y, m);
  }

  lemma {:induction false} MonthShift(y: int, m: int)
    requires 1 <= m <= 13
    ensures m <= 2 ==> DaysBeforeMonth(y + 1, m) == DaysBeforeMonth(y, m)
    ensures m > 2 ==> DaysBeforeMonth(y + 1, m) - DaysBeforeMonth(y, m) == YearLength(y + 1) - YearLength(y)
    decreases m
  {
    if m > 1 {
      MonthShift(y, m - 1);
    }
  }

  // ---------------------------------------------------------------------------
  // The parsed reset is the next occurrence
  // ---------------------------------------------------------------------------

  /** A time without a date: the first instant after now, within 24 hours, with that time of day. */
  lemma TimeOnlyIsNext(r: Request, now: Moment, t: int)
    requires ValidMoment(now) && r.date.None? && LocalReset(r, now).Some?
    ensures var reset := LocalReset(r, now).value;
            && Instant(now) < reset <= Instant(now) + DAY
            && reset % DAY == Hour24(r.hour, r.meridiem) * HOUR + r.minute * MINUTE
            && (t > Instant(now) && t % DAY == reset % DAY ==> reset <= t)
  {
    var reset := LocalReset(r, now).value;
    var at := AtTime(now.year, now.month, now.day, r);
    TimeOfDayBounds(at);
    TimeOfDayBounds(now);
    var ord := Ordinal(now.year, now.month, now.day);
    ModAdd(ord, TimeOfDay(at));
    ModAdd(ord + 1, TimeOfDay(at));
    assert reset == ord * DAY + TimeOfDay(at) || reset == (ord + 1) * DAY + TimeOfDay(at);
    if t > Instant(now) && t % DAY == reset % DAY {
      assert t == (t / DAY) * DAY + TimeOfDay(at);
      if t < reset {
        var n := if reset == ord * DAY + TimeOfDay(at) then ord else ord + 1;
        Multiples(t / DAY, n, TimeOfDay(at));
      }
    }
  }

  lemma ModAdd(n: int, x: int)
    requires 0 <= x < DAY
    ensures (n * DAY + x) % DAY == x
  {
  }

  lemma Multiples(a: int, b: int, x: int)
    requires a * DAY + x < b * DAY + x
    ensures a * DAY + x + DAY <= b * DAY + x
  {
  }

  lemma YearLater(now: Moment, month: int, day: int, r: Request)
    requires now.year >= MIN_YEAR && 1 <= month <= 12
    ensures Instant(AtTime(now.year + 1, month, day, r)) <= Instant(AtTime(now.year, month, day, r)) + 366 * DAY
  {
    NextYear(now.year, month, day);
  }

  /** A time with a date lands on that date this year or next, after now, at most 366 days away if it rolls over. */
  lemma DatedIsLater(r: Request, now: Moment)
    requires ValidMoment(now) && r.date.Some? && LocalReset(r, now).Some?
    ensures var reset := LocalReset(r, now).value;
            var (month, day) := r.date.value;
            && Instant(now) < reset
            && (reset == Instant(AtTime(now.year, month, day, r)) ||
                (reset == Instant(AtTime(now.year + 1, month, day, r)) && reset <= Instant(now) + 366 * DAY))
  {
    var (month, day) := r.date.value;
    if Instant(AtTime(now.year, month, day, r)) <= Instant(now) {
      InstantOrdered(now, AtTime(now.year + 1, month, day, r));
      YearLater(now, month, day, r);
    }
  }

  /** Of two valid years for one date the later one comes later. */
  lemma YearsInOrder(month: int, day: int, r: Request, y: int, z: int)
    requires ValidTime(r) && ValidDate(y, month, day) && ValidDate(z, month, day) && y <= z
    ensures Instant(AtTime(y, month, day, r)) <= Instant(AtTime(z, month, day, r))
  {
    if y < z {
      InstantOrdered(AtTime(y, month, day, r), AtTime(z, month, day, r));
    }
  }

  /** A date that is after now is not in an earlier year. */
  lemma NotInThePast(now: Moment, month: int, day: int, r: Request, other: int)
    requires ValidMoment(now) && ValidTime(r) && ValidDate(other, month, day)
    requires Instant(AtTime(other, month, day, r)) > Instant(now)
    ensures other >= now.year
  {
    if other < now.year {
      InstantOrdered(AtTime(other, month, day, r), now);
    }
  }

  /** No moment with those fields lies strictly between now and the result, in any year. */
  lemma DatedIsNext(r: Request, now: Moment, other: int)
    requires ValidMoment(now) && r.date.Some? && LocalReset(r, now).Some?
    requires ValidDate(other, r.date.value.0, r.date.value.1)
    requires Instant(AtTime(other, r.date.value.0, r.date.value.1, r)) > Instant(now)
    ensures LocalReset(r, now).value <= Instant(AtTime(other, r.date.value.0, r.date.value.1, r))
  {
    var (month, day) := r.date.value;
    NotInThePast(now, month, day, r, other);
    YearsInOrder(month, day, r, now.year, other);
    if other > now.year && ValidDate(now.year + 1, month, day) {
      YearsInOrder(month, day, r, now.year + 1, other);
    }
  }

  // ---------------------------------------------------------------------------
  // The answer in UTC
  // ---------------------------------------------------------------------------

  /**
   * The answer in UTC is as far from now as the local one. It is missing, although there is a local one, exactly when
   * the shift leads out of the years 1 to 9999.
   */
  lemma UtcIsTheSameInstant(r: Request, now: Moment, offset: int)
    requires ValidMoment(now)
    ensures var local, utc := LocalReset(r, now), ParseReset(r, now, offset);
            && (utc.Some? ==> local.Some? && utc.value - (Instant(now) - offset) == local.value - Instant(now))
            && (utc.Some? ==> utc.value > Instant(now) - offset && DAY <= utc.value <= LAST_INSTANT)
            && (local.Some? && utc.None? <==>
                  local.Some? && (local.value < DAY + offset || local.value > LAST_INSTANT + offset))
  {
    if LocalReset(r, now).Some? {
      if r.date.Some? {
        DatedIsLater(r, now);
      } else {
        TimeOnlyIsNext(r, now, Instant(now));
      }
    }
  }

  /** In particular never before the year 9997, nor in the year 1. */
  lemma UtcExists(r: Request, now: Moment, offset: int)
    requires ValidMoment(now) && 2 <= now.year <= MAX_YEAR - 2 && -DAY < offset < DAY
    ensures ParseReset(r, now, offset).Some? <==> LocalReset(r, now).Some?
  {
    if LocalReset(r, now).Some? {
      ResetIsEarly(r, now);
      var first := Moment(1, 2, 1, 0, 0, 0, 0);
      InstantOrdered(first, now);
      assert Instant(first) == 32 * DAY;
      assert LocalReset(r, now).value > Instant(now) by {
        if r.date.Some? { DatedIsLater(r, now); } else { TimeOnlyIsNext(r, now, Instant(now)); }
      }
    }
  }

  lemma ResetIsEarly(r: Request, now: Moment)
    requires ValidMoment(now) && now.year <= MAX_YEAR - 2 && LocalReset(r, now).Some?
    ensures LocalReset(r, now).value + DAY <= LAST_INSTANT
  {
    var late := Moment(MAX_YEAR, 12, 29, 23, 59, 59, 999_999);
    assert Instant(late) == LAST_INSTANT - 2 * DAY;
    if r.date.Some? {
      DatedIsLater(r, now);
      var (month, day) := r.date.value;
      if LocalReset(r, now).value == Instant(AtTime(now.year, month, day, r)) {
        InstantOrdered(AtTime(now.year, month, day, r), late);
      } else {
        InstantOrdered(AtTime(now.year + 1, month, day, r), late);
      }
    } else {
      TimeOnlyIsNext(r, now, Instant(now));
      InstantOrdered(now, late);
    }
  }

  // ---------------------------------------------------------------------------
  // When there is no answer
  // ---------------------------------------------------------------------------

  /** The hour that is meant: 12 am is midnight, and pm adds twelve up to eleven. */
  ghost function Meant(r: Request): int {
    match r.meridiem
    case NoMeridiem => r.hour
    case AM => if r.hour == 12 then 0 else r.hour
    case PM => if r.hour >= 12 then r.hour else r.hour + 12
  }

  /**
   * A time without a date has an answer exactly when there is such a time of day and it is not over on the last day of
   * the year 9999.
   */
  lemma TimeOnlyAnswer(r: Request, now: Moment)
    requires ValidMoment(now) && r.date.None?
    ensures LocalReset(r, now).Some? <==>
            && Meant(r) <= 23 && r.minute <= 59
            && !(now.year == 9999 && now.month == 12 && now.day == 31
                 && (Meant(r) * 60 + r.minute) * 60_000_000 <= TimeOfDay(now))
  {
    if ValidTime(r) {
      var at := AtTime(now.year, now.month, now.day, r);
      TimeOfDayBounds(at);
      TimeOfDayBounds(now);
      LastDay(now.year, now.month, now.day);
      LastInstantIs();
      DayAfterFits(Ordinal(now.year, now.month, now.day), TimeOfDay(at));
    }
  }

  lemma LastInstantIs()
    ensures LAST_INSTANT == Ordinal(MAX_YEAR, 12, 31) * DAY + (DAY - 1)
  {
  }

  lemma DayAfterFits(ord: int, time: int)
    requires 0 < ord <= Ordinal(MAX_YEAR, 12, 31) && 0 <= time < DAY
    requires LAST_INSTANT == Ordinal(MAX_YEAR, 12, 31) * DAY + (DAY - 1)
    ensures InRange(ord * DAY + time + DAY) <==> ord < Ordinal(MAX_YEAR, 12, 31)
  {
    var last := Ordinal(MAX_YEAR, 12, 31);
    if ord < last {
      assert (ord + 1) * DAY <= last * DAY;
    }
  }

  lemma OrdinalPositive(y: int, m: int, d: int)
    requires ValidDate(y, m, d)
    ensures Ordinal(y, m, d) > 0
  {
    MonthsNonNegative(y, m);
    if y > MIN_YEAR {
      YearsOrdered(MIN_YEAR, y);
    }
  }

  lemma LastDay(y: int, m: int, d: int)
    requires ValidDate(y, m, d)
    ensures 0 < Ordinal(y, m, d) <= Ordinal(MAX_YEAR, 12, 31)
    ensures Ordinal(y, m, d) == Ordinal(MAX_YEAR, 12, 31) <==> y == MAX_YEAR && m == 12 && d == 31
  {
    OrdinalPositive(y, m, d);
    if !(y == MAX_YEAR && m == 12 && d == 31) {
      OrdinalOrdered(y, m, d, MAX_YEAR, 12, 31);
    }
  }

  /** A time that there is not has no answer on any date. */
  lemma NoSuchTime(r: Request, now: Moment)
    requires Meant(r) > 23 || r.minute > 59
    ensures LocalReset(r, now).None?
  {
  }

  /** Only 29 February exists in some years and not in others. */
  lemma DatesRecur(y: int, z: int, m: int, d: int)
    requires MIN_YEAR <= y <= MAX_YEAR && MIN_YEAR <= z <= MAX_YEAR && (m, d) != (2, 29)
    ensures ValidDate(y, m, d) == ValidDate(z, m, d)
  {
  }

  /** Any other date has no answer exactly when it exists in no year, or its next occurrence is in year 10000. */
  lemma OrdinaryDateAnswer(r: Request, now: Moment)
    requires ValidMoment(now) && ValidTime(r) && r.date.Some? && r.date.value != (2, 29)
    ensures var (month, day) := r.date.value;
            LocalReset(r, now).None? <==>
              || (forall y :: !ValidDate(y, month, day))
              || (now.year == MAX_YEAR && Instant(AtTime(now.year, month, day, r)) <= Instant(now))
  {
    var (month, day) := r.date.value;
    if ValidDate(now.year, month, day) && now.year < MAX_YEAR {
      DatesRecur(now.year, now.year + 1, month, day);
    }
    forall y ensures ValidDate(y, month, day) ==> ValidDate(now.year, month, day) {
      if ValidDate(y, month, day) {
        DatesRecur(now.year, y, month, day);
      }
    }
  }

  /**
   * For 29 February there is an answer exactly when the current year is a leap year whose 29 February is still to
   * come; otherwise the parser gives up although a later leap year has the date.
   */
  lemma LeapDayAnswer(r: Request, now: Moment)
    requires ValidMoment(now) && ValidTime(r) && r.date == Some((2, 29))
    ensures LocalReset(r, now).Some? <==> Leap(now.year) && Instant(AtTime(now.year, 2, 29, r)) > Instant(now)
    ensures now.year <= MAX_YEAR - 8 ==>
              exists y :: now.year < y <= now.year + 8 && ValidDate(y, 2, 29) && Instant(AtTime(y, 2, 29, r)) > Instant(now)
  {
    if now.year <= MAX_YEAR - 8 {
      var y := NextLeap(now.year);
      InstantOrdered(now, AtTime(y, 2, 29, r));
    }
  }

  lemma NextLeap(from: int) returns (y: int)
    ensures from < y <= from + 8 && Leap(y)
  {
    y := 4 * (from / 4) + 4;
    if y % 100 == 0 {
      AfterCentury(y);
      y := y + 4;
    }
  }

  lemma AfterCentury(y: int)
    requires y % 100 == 0
    ensures (y + 4) % 4 == 0 && (y + 4) % 100 != 0
  {
  }

  function TwelveHour(hour: int): (nat, Meridiem)
    requires 0 <= hour <= 23
  {
    (if hour % 12 == 0 then 12 else hour % 12, if hour < 12 then AM else PM)
  }

  /** Twelve-hour input names each hour of the day exactly once. */
  lemma TwelveHourClock()
    ensures forall hour :: 0 <= hour <= 23 ==>
              Hour24(TwelveHour(hour).0, TwelveHour(hour).1) == hour && 1 <= TwelveHour(hour).0 <= 12
    ensures forall h: nat, m: Meridiem :: 1 <= h <= 12 && !m.NoMeridiem? ==>
              Hour24(h, m) <= 23 && TwelveHour(Hour24(h, m)) == (h, m)
  {
  }
}
