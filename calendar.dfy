/**
 * The date part of an ISO-8601 timestamp (toISOString().split("T")[0]),
 * computed from a day number with the proleptic Gregorian calendar.
 */
module Calendar {
  import opened Text

  /** Days since 0000-03-01 split into 400-year eras: the era of day z and the day within it. */
  function Era(z: int): int {
    (z + 719468) / 146097
  }

  function DayOfEra(z: int): int {
    z + 719468 - Era(z) * 146097
  }

  function YearOfEra(doe: int): int {
    (doe - doe / 1460 + doe / 36524 - doe / 146096) / 365
  }

  /** The day within the March-based year. */
  function DayOfYear(doe: int, yoe: int): int {
    doe - (365 * yoe + yoe / 4 - yoe / 100)
  }

  /** The month of a March-based year, 0 for March to 11 for February. */
  function MonthIndex(doy: int): int {
    (5 * doy + 2) / 153
  }

  function DayOfMonth(doy: int, mp: int): int {
    doy - (153 * mp + 2) / 5 + 1
  }

  /** Year, month and day of day number z (day 0 is 1970-01-01). */
  function CivilFromDays(z: int): (ymd: (int, int, int))
    ensures 1 <= ymd.1 <= 12
    ensures 1 <= ymd.2 <= 31
  {
    var doe := DayOfEra(z);
    var yoe := YearOfEra(doe);
    var doy := DayOfYear(doe, yoe);
    var mp := MonthIndex(doy);
    var m := if mp < 10 then mp + 3 else mp - 9;
    (yoe + Era(z) * 400 + (if m <= 2 then 1 else 0), m, DayOfMonth(doy, mp))
  }

  /** The year as toISOString writes it: four digits, or a sign and six digits outside 0..9999. */
  function YearText(y: int): (s: string)
    ensures 0 <= y <= 9999 ==> |s| == 4 && AllDigits(s)
  {
    if 0 <= y <= 9999 then
      NatToStringLength(y, 4);
      PadLeft(NatToString(y), 4)
    else if y < 0 then "-" + PadLeft(NatToString(-y), 6)
    else "+" + PadLeft(NatToString(y), 6)
  }

  function TwoDigits(n: int): (s: string)
    requires 1 <= n <= 31
    ensures |s| == 2 && AllDigits(s)
  {
    NatToStringLength(n, 2);
    PadLeft(NatToString(n), 2)
  }

  lemma DateShape(a: string, b: string, c: string)
    requires |a| == 4 && |b| == 2 && |c| == 2 && AllDigits(a) && AllDigits(b) && AllDigits(c)
    ensures var s := a + "-" + b + "-" + c;
            |s| == 10 && s[4] == '-' && s[7] == '-' && AllDigits(s[..4]) && AllDigits(s[5..7]) && AllDigits(s[8..])
  {
    var s := a + "-" + b + "-" + c;
    assert s[..4] == a;
    assert s[5..7] == b;
    assert s[8..] == c;
  }

  /** YYYY-MM-DD of a year, month and day. */
  function DateText(y: int, m: int, d: int): (s: string)
    requires 1 <= m <= 12 && 1 <= d <= 31
    ensures 0 <= y <= 9999 ==>
              |s| == 10 && s[4] == '-' && s[7] == '-' &&
              AllDigits(s[..4]) && AllDigits(s[5..7]) && AllDigits(s[8..])
  {
    var a, b, c := YearText(y), TwoDigits(m), TwoDigits(d);
    if 0 <= y <= 9999 then
      DateShape(a, b, c);
      a + "-" + b + "-" + c
    else
      a + "-" + b + "-" + c
  }

  /** YYYY-MM-DD of day number z. */
  function IsoDate(z: int): (s: string)
    ensures 0 <= CivilFromDays(z).0 <= 9999 ==>
              |s| == 10 && s[4] == '-' && s[7] == '-' &&
              AllDigits(s[..4]) && AllDigits(s[5..7]) && AllDigits(s[8..])
  {
    var ymd := CivilFromDays(z);
    DateText(ymd.0, ymd.1, ymd.2)
  }

  /** Day 19884 is 2024-06-10. */
  lemma CivilExampleJune()
    ensures CivilFromDays(19884) == (2024, 6, 10)
  {
    assert Era(19884) == 5;
    assert DayOfEra(19884) == 8867;
    assert YearOfEra(8867) == 24;
    assert DayOfYear(8867, 24) == 101;
    assert MonthIndex(101) == 3;
    assert DayOfMonth(101, 3) == 10;
  }

  /** Thirty days later, day 19914, is 2024-07-10. */
  lemma CivilExampleJuly()
    ensures CivilFromDays(19914) == (2024, 7, 10)
  {
    assert Era(19914) == 5;
    assert DayOfEra(19914) == 8897;
    assert YearOfEra(8897) == 24;
    assert DayOfYear(8897, 24) == 131;
    assert MonthIndex(131) == 4;
    assert DayOfMonth(131, 4) == 10;
  }

  lemma DateTextExample()
    ensures DateText(2024, 7, 10) == "2024-07-10"
  {
    assert NatToString(2024) == "2024";
    assert PadLeft("2024", 4) == "2024";
    assert PadLeft("7", 2) == "07";
    assert NatToString(10) == "10";
    assert PadLeft("10", 2) == "10";
  }

  lemma IsoDateExample()
    ensures IsoDate(19914) == "2024-07-10"
  {
    CivilExampleJuly();
    DateTextExample();
  }
}
