/**
 * Time-window rules for delivery: the allowed hours, the weekend switch and
 * the (always empty) holiday calendar, and the daily-cap stub. Time is
 * milliseconds since the epoch; days, hours and weekdays are computed from
 * it in UTC.
 */
module TimeWindow {
  import opened Strategy

  const MS_PER_MINUTE: int := 60000
  const MS_PER_HOUR: int := 3600000
  const MS_PER_DAY: int := 86400000

  /** The day number of t (day 0 is 1970-01-01). */
  function DayIndex(t: int): int {
    t / MS_PER_DAY
  }

  function HourOf(t: int): int {
    (t % MS_PER_DAY) / MS_PER_HOUR
  }

  /** getDay(): 0 is Sunday, 6 is Saturday; day 0 was a Thursday. */
  function Weekday(t: int): int {
    (DayIndex(t) + 4) % 7
  }

  /** setHours(h, 0, 0, 0) on the day of t. */
  function AtHour(t: int, h: int): int {
    DayIndex(t) * MS_PER_DAY + h * MS_PER_HOUR
  }

  predicate IsWeekend(t: int) {
    Weekday(t) == 0 || Weekday(t) == 6
  }

  /** The holiday calendar is a stub: no day is a holiday. */
  function IsHoliday(t: int): (r: bool)
    ensures !r
  {
    false
  }

  /** isValidTime: inside the hour range, and not on a weekend when weekends are disabled. */
  function IsValidTime(tc: TimeConstraints, t: int): (r: bool)
    ensures HourOf(t) < tc.startHour || HourOf(t) >= tc.endHour ==> !r
    ensures !tc.weekendEnabled && IsWeekend(t) ==> !r
    ensures r <==> tc.startHour <= HourOf(t) < tc.endHour && (tc.weekendEnabled || !IsWeekend(t))
  {
    if HourOf(t) < tc.startHour || HourOf(t) >= tc.endHour then false
    else if !tc.weekendEnabled && IsWeekend(t) then false
    else if !tc.holidaysEnabled && IsHoliday(t) then false
    else true
  }

  /** Day number and hour of a moment given as day d plus h hours and m further milliseconds. */
  lemma DayParts(d: int, h: int, m: int)
    requires 0 <= h < 24 && 0 <= m < MS_PER_HOUR
    ensures DayIndex(d * MS_PER_DAY + h * MS_PER_HOUR + m) == d
    ensures HourOf(d * MS_PER_DAY + h * MS_PER_HOUR + m) == h
  {
    var t := d * MS_PER_DAY + h * MS_PER_HOUR + m;
    assert 0 <= h * MS_PER_HOUR + m < MS_PER_DAY;
    assert t / MS_PER_DAY == d;
    assert t % MS_PER_DAY == h * MS_PER_HOUR + m;
  }

  /** Every moment is its day start plus its hour plus a remainder under an hour. */
  lemma Decompose(t: int)
    ensures 0 <= HourOf(t) < 24
    ensures DayIndex(t) * MS_PER_DAY + HourOf(t) * MS_PER_HOUR <= t < DayIndex(t) * MS_PER_DAY + (HourOf(t) + 1) * MS_PER_HOUR
  {
  }

  /** Moving a moment by k whole days moves its day number by k. */
  lemma DayShift(t: int, k: int)
    ensures DayIndex(t + k * MS_PER_DAY) == DayIndex(t) + k
  {
    Decompose(t);
    DayParts(DayIndex(t) + k, HourOf(t), t - DayIndex(t) * MS_PER_DAY - HourOf(t) * MS_PER_HOUR);
  }

  lemma AtHourParts(t: int, k: int, h: int)
    requires 0 <= h < 24
    ensures DayIndex(AtHour(t + k * MS_PER_DAY, h)) == DayIndex(t) + k
    ensures HourOf(AtHour(t + k * MS_PER_DAY, h)) == h
    ensures Weekday(AtHour(t + k * MS_PER_DAY, h)) == (Weekday(t) + k) % 7
  {
    DayShift(t, k);
    DayParts(DayIndex(t) + k, h, 0);
  }

  /** A later moment is never on an earlier day. */
  lemma DayMono(a: int, b: int)
    requires a <= b
    ensures DayIndex(a) <= DayIndex(b)
  {
    Decompose(a);
    Decompose(b);
  }

  /** On one day, a later moment never has an earlier hour. */
  lemma SameDayHour(a: int, b: int)
    requires a <= b && DayIndex(a) == DayIndex(b)
    ensures HourOf(a) <= HourOf(b)
  {
    Decompose(a);
    Decompose(b);
  }

  /** A moment of day d before hour h of that day has an hour below h. */
  lemma BeforeHourSameDay(s: int, d: int, h: int)
    requires DayIndex(s) == d && s < d * MS_PER_DAY + h * MS_PER_HOUR
    ensures HourOf(s) < h
  {
    Decompose(s);
  }

  /** The weekday of b is the weekday of a moved by the days between them. */
  lemma WeekdayOffset(a: int, b: int)
    ensures Weekday(b) == (Weekday(a) + (DayIndex(b) - DayIndex(a))) % 7
  {
    var x := DayIndex(a) + 4;
    assert x == 7 * (x / 7) + x % 7;
    assert DayIndex(b) + 4 == 7 * (x / 7) + (x % 7 + (DayIndex(b) - DayIndex(a)));
  }

  /** setHours(startHour, 0, 0, 0) leaves the moment exactly on the start hour of its day. */
  predicate OnStartHour(tc: TimeConstraints, r: int) {
    r == AtHour(r, tc.startHour)
  }

  /**
   * The weekend step of getNextValidTime: with weekends disabled, a Saturday
   * moves two days and a Sunday one day ahead, to the start hour.
   */
  function WeekendShift(tc: TimeConstraints, n: int): (r: int)
    requires WellFormedHours(tc)
    ensures r >= n
    ensures tc.weekendEnabled || !IsWeekend(n) ==> r == n
    ensures !tc.weekendEnabled && IsWeekend(n) ==>
              HourOf(r) == tc.startHour && !IsWeekend(r) && OnStartHour(tc, r) &&
              DayIndex(r) == DayIndex(n) + (if Weekday(n) == 6 then 2 else 1)
  {
    if !tc.weekendEnabled && IsWeekend(n) then
      var k := if Weekday(n) == 6 then 2 else 1;
      AtHourParts(n, k, tc.startHour);
      Decompose(n);
      AtHour(n + k * MS_PER_DAY, tc.startHour)
    else n
  }

  /**
   * getNextValidTime as the code is written. Before the start hour it
   * returns the start hour of the same day at once, so the weekend step is
   * skipped; after the end hour it moves to the next day's start hour and
   * then applies the weekend step. The holiday search never runs, because no
   * day is a holiday.
   */
  function NextValidTimeAsWritten(tc: TimeConstraints, t: int): (r: int)
    requires WellFormedHours(tc)
    ensures r >= t
    ensures IsValidTime(tc, t) ==> r == t
    ensures HourOf(t) < tc.startHour ==> DayIndex(r) == DayIndex(t) && HourOf(r) == tc.startHour
    ensures HourOf(t) >= tc.endHour ==> HourOf(r) == tc.startHour && DayIndex(t) < DayIndex(r) <= DayIndex(t) + 3
    ensures HourOf(t) >= tc.endHour ==>
              DayIndex(r) == DayIndex(t) + 1 +
                (if tc.weekendEnabled then 0 else if Weekday(t) == 5 then 2 else if Weekday(t) == 6 then 1 else 0)
    ensures tc.startHour <= HourOf(t) < tc.endHour && !tc.weekendEnabled && IsWeekend(t) ==>
              HourOf(r) == tc.startHour && DayIndex(r) == DayIndex(t) + (if Weekday(t) == 6 then 2 else 1)
    ensures IsValidTime(tc, r) <==> !(HourOf(t) < tc.startHour && !tc.weekendEnabled && IsWeekend(t))
  {
    Decompose(t);
    if HourOf(t) < tc.startHour then
      AtHourParts(t, 0, tc.startHour);
      AtHour(t, tc.startHour)
    else if HourOf(t) >= tc.endHour then
      AtHourParts(t, 1, tc.startHour);
      WeekendShift(tc, AtHour(t + MS_PER_DAY, tc.startHour))
    else
      WeekendShift(tc, t)
  }

  /** With weekends disabled, an early-morning Saturday or Sunday yields a moment isValidTime rejects. */
  lemma AsWrittenEarlyWeekendInvalid(tc: TimeConstraints, t: int)
    requires WellFormedHours(tc) && !tc.weekendEnabled
    requires IsWeekend(t) && HourOf(t) < tc.startHour
    ensures !IsValidTime(tc, NextValidTimeAsWritten(tc, t))
  {
    AtHourParts(t, 0, tc.startHour);
  }

  /** The concrete case: Saturday 2024-06-08 03:00 UTC, window 9-20, weekends disabled. */
  lemma AsWrittenSaturdayMorning()
    ensures Weekday(1717815600000) == 6 && HourOf(1717815600000) == 3
    ensures !IsValidTime(TimeConstraints(9, 20, false, false),
                         NextValidTimeAsWritten(TimeConstraints(9, 20, false, false), 1717815600000))
  {
    AsWrittenEarlyWeekendInvalid(TimeConstraints(9, 20, false, false), 1717815600000);
  }

  /**
   * getNextValidTime as intended: the earliest-hour branch also goes through
   * the weekend step, so the result is always a valid moment.
   */
  function NextValidTime(tc: TimeConstraints, t: int): (r: int)
    requires WellFormedHours(tc)
    ensures r >= t
    ensures IsValidTime(tc, r)
    ensures IsValidTime(tc, t) ==> r == t
    ensures !IsValidTime(tc, t) ==> OnStartHour(tc, r)
  {
    Decompose(t);
    var n :=
      if HourOf(t) < tc.startHour then AtHour(t, tc.startHour)
      else if HourOf(t) >= tc.endHour then AtHour(t + MS_PER_DAY, tc.startHour)
      else t;
    AtHourParts(t, 0, tc.startHour);
    AtHourParts(t, 1, tc.startHour);
    WeekendShift(tc, n)
  }

  /**
   * The corrected result is the next valid moment: no moment from t up to
   * it is valid.
   */
  lemma NextValidIsLeast(tc: TimeConstraints, t: int, s: int)
    requires WellFormedHours(tc)
    requires t <= s < NextValidTime(tc, t)
    ensures !IsValidTime(tc, s)
  {
    var r := NextValidTime(tc, t);
    Decompose(t);
    Decompose(s);
    AtHourParts(t, 0, tc.startHour);
    AtHourParts(t, 1, tc.startHour);
    DayMono(t, s);
    DayMono(s, r);
    WeekdayOffset(t, s);
    if IsValidTime(tc, t) {
      assert false;
    } else if DayIndex(s) == DayIndex(r) {
      BeforeHourSameDay(s, DayIndex(r), tc.startHour);
    } else if DayIndex(s) == DayIndex(t) {
      SameDayHour(t, s);
    }
  }

  /** The daily-cap check is a stub that always allows sending. */
  function CheckDailyNotificationLimit(borrowerId: string, t: int): (withinLimit: bool)
    ensures withinLimit
  {
    true
  }

  /** Tomorrow at the start hour: where a capped notification is moved. */
  function NextDayStart(tc: TimeConstraints, now: int): (r: int)
    requires WellFormedHours(tc)
    ensures r > now
    ensures DayIndex(r) == DayIndex(now) + 1 && HourOf(r) == tc.startHour
  {
    AtHourParts(now, 1, tc.startHour);
    Decompose(now);
    AtHour(now + MS_PER_DAY, tc.startHour)
  }
}
