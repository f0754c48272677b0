// Civil time, as "Seconds Since the Epoch" in section 4.16 of POSIX.1-2017 Base Definitions counts it,
// for local times from 1970 on.

module Calendar {

  datatype Date = Date(year: int, month: int, day: int)

  datatype BrokenDownTime = BrokenDownTime(date: Date, hour: int, minute: int, second: int, weekday: int)

  const DayMs := 86400000
  const MinuteMs := 60000

  predicate Leap(y: int) {
    y % 4 == 0 && (y % 100 != 0 || y % 400 == 0)
  }

  /** Days of the Epoch before 1 January of a year: the POSIX expression for its first second, in days. */
  function DaysBeforeYear(y: int): int
    requires y >= 1970
  {
    365 * (y - 1970) + (y - 1969) / 4 - (y - 1901) / 100 + (y - 1601) / 400
  }

  function MonthLength(y: int, m: int): (n: int)
    requires 1 <= m <= 12
    ensures 28 <= n <= 31
  {
    if m == 2 then (if Leap(y) then 29 else 28)
    else if m in {4, 6, 9, 11} then 30 else 31
  }

  /** Days of a year before the first of a month (of the year's end, for 13). */
  function DaysBeforeMonth(y: int, m: int): (n: nat)
    requires 1 <= m <= 13
    ensures n >= 28 * (m - 1)
    decreases m
  {
    if m == 1 then 0 else DaysBeforeMonth(y, m - 1) + MonthLength(y, m - 1)
  }

  /** Months before March are counted out; from March on their lengths repeat every five months, 153 days each time. */
  lemma MonthStarts(y: int, m: int)
    requires 1 <= m <= 13
    ensures DaysBeforeMonth(y, m) == if m <= 2 then 31 * (m - 1)
                                     else (if Leap(y) then 60 else 59) + (153 * (m - 3) + 2) / 5
  {
    hide Leap;
    assert DaysBeforeMonth(y, 1) == 0;
    assert DaysBeforeMonth(y, 2) == 31;
    assert m > 2 ==> DaysBeforeMonth(y, 3) == if Leap(y) then 60 else 59;
    if m > 3 {
      MonthStarts(y, m - 1);
    }
  }

  lemma YearLength(y: int)
    requires y >= 1970
    ensures DaysBeforeYear(y + 1) - DaysBeforeYear(y) == (if Leap(y) then 366 else 365)
    ensures DaysBeforeMonth(y, 13) == (if Leap(y) then 366 else 365)
  {
    DaysGained(y);
    hide DaysBeforeYear, DaysBeforeMonth;
  }

  lemma DaysGained(y: int)
    requires y >= 1970
    ensures DaysBeforeYear(y + 1) - DaysBeforeYear(y) == (if Leap(y) then 366 else 365)
  {
    hide Leap;
    LeapSteps(y);
    LeapSum(y);
    var a, b, c := (y - 1969) / 4, (y - 1901) / 100, (y - 1601) / 400;
    assert DaysBeforeYear(y) == 365 * (y - 1970) + a - b + c;
    var d, e, f := (y + 1 - 1969) / 4, (y + 1 - 1901) / 100, (y + 1 - 1601) / 400;
    assert DaysBeforeYear(y + 1) == 365 * (y + 1 - 1970) + d - e + f;
  }

  lemma LeapSum(y: int)
    ensures (if y % 4 == 0 then 1 else 0) - (if y % 100 == 0 then 1 else 0) + (if y % 400 == 0 then 1 else 0)
            == if Leap(y) then 1 else 0
  {
  }

  lemma LeapSteps(y: int)
    requires y >= 1970
    ensures (y - 1968) / 4 - (y - 1969) / 4 == (if y % 4 == 0 then 1 else 0)
    ensures (y - 1900) / 100 - (y - 1901) / 100 == (if y % 100 == 0 then 1 else 0)
    ensures (y - 1600) / 400 - (y - 1601) / 400 == (if y % 400 == 0 then 1 else 0)
  {
    StepBy4(y);
    StepBy100(y);
    StepBy400(y);
  }

  lemma StepBy4(y: int)
    ensures (y - 1968) / 4 - (y - 1969) / 4 == (if y % 4 == 0 then 1 else 0)
  {
    assert (y - 1968) / 4 == y / 4 - 492;
  }

  lemma StepBy100(y: int)
    ensures (y - 1900) / 100 - (y - 1901) / 100 == (if y % 100 == 0 then 1 else 0)
  {
    assert (y - 1900) / 100 == y / 100 - 19;
  }

  lemma StepBy400(y: int)
    ensures (y - 1600) / 400 - (y - 1601) / 400 == (if y % 400 == 0 then 1 else 0)
  {
    assert (y - 1600) / 400 == y / 400 - 4;
  }

  /** The year a day falls in, searched upwards. */
  function YearFrom(y: int, days: int): (r: int)
    requires y >= 1970 && DaysBeforeYear(y) <= days
    ensures r >= y && DaysBeforeYear(r) <= days < DaysBeforeYear(r + 1)
    decreases days - DaysBeforeYear(y)
  {
    YearLength(y);
    if days < DaysBeforeYear(y + 1) then y else YearFrom(y + 1, days)
  }

  function MonthFrom(y: int, m: int, days: int): (r: int)
    requires 1 <= m <= 12 && DaysBeforeMonth(y, m) <= days < DaysBeforeMonth(y, 13)
    ensures m <= r <= 12 && DaysBeforeMonth(y, r) <= days < DaysBeforeMonth(y, r + 1)
    decreases 12 - m
  {
    if m == 12 || days < DaysBeforeMonth(y, m + 1) then m else MonthFrom(y, m + 1, days)
  }

  predicate ValidDate(d: Date) {
    d.year >= 1970 && 1 <= d.month <= 12 && 1 <= d.day <= MonthLength(d.year, d.month)
  }

  /** The date of a day of the Epoch. */
  function DateOf(days: nat): (d: Date)
    ensures ValidDate(d)
  {
    var y := YearFrom(1970, days);
    YearLength(y);
    var rest := days - DaysBeforeYear(y);
    var m := MonthFrom(y, 1, rest);
    Date(y, m, rest - DaysBeforeMonth(y, m) + 1)
  }

  function DayNumber(d: Date): int
    requires ValidDate(d)
  {
    DaysBeforeYear(d.year) + DaysBeforeMonth(d.year, d.month) + d.day - 1
  }

  lemma {:induction false} YearsGrow(a: int, b: int)
    requires 1970 <= a <= b
    ensures DaysBeforeYear(a) <= DaysBeforeYear(b)
    ensures a < b ==> DaysBeforeYear(a + 1) <= DaysBeforeYear(b)
    decreases b - a
  {
    if a < b {
      YearLength(a);
      YearsGrow(a + 1, b);
    }
  }

  lemma {:induction false} MonthsGrow(y: int, a: int, b: int)
    requires 1 <= a <= b <= 13
    ensures DaysBeforeMonth(y, a) <= DaysBeforeMonth(y, b)
    ensures a < b ==> DaysBeforeMonth(y, a + 1) <= DaysBeforeMonth(y, b)
    decreases b - a
  {
    if a < b {
      MonthsGrow(y, a, b - 1);
    }
  }

  /** Later days have later or equal years. */
  lemma YearMonotone(a: nat, b: nat)
    requires a <= b
    ensures DateOf(a).year <= DateOf(b).year
  {
    if DateOf(b).year < DateOf(a).year {
      YearsGrow(DateOf(b).year, DateOf(a).year);
    }
  }

  /** A day and its date determine each other. */
  lemma DayRoundTrip(days: nat)
    ensures DayNumber(DateOf(days)) == days
  {
  }

  lemma DateInYear(d: Date)
    requires ValidDate(d)
    ensures DaysBeforeYear(d.year) <= DayNumber(d) < DaysBeforeYear(d.year + 1) && DayNumber(d) >= 0
  {
    hide Leap;
    YearsGrow(1970, d.year);
    YearLength(d.year);
    MonthsGrow(d.year, d.month, 13);
  }

  lemma SameYear(a: int, b: int, days: int)
    requires 1970 <= a && 1970 <= b
    requires DaysBeforeYear(a) <= days < DaysBeforeYear(a + 1) && DaysBeforeYear(b) <= days < DaysBeforeYear(b + 1)
    ensures a == b
  {
    hide DaysBeforeYear;
    if a < b {
      YearsGrow(a, b);
    } else if b < a {
      YearsGrow(b, a);
    }
  }

  lemma SameMonth(y: int, a: int, b: int, rest: int)
    requires 1 <= a <= 12 && 1 <= b <= 12
    requires DaysBeforeMonth(y, a) <= rest < DaysBeforeMonth(y, a + 1)
    requires DaysBeforeMonth(y, b) <= rest < DaysBeforeMonth(y, b + 1)
    ensures a == b
  {
    if a < b {
      MonthsGrow(y, a, b);
    } else if b < a {
      MonthsGrow(y, b, a);
    }
  }

  lemma DateRoundTrip(d: Date)
    requires ValidDate(d)
    ensures DayNumber(d) >= 0 && DateOf(DayNumber(d)) == d
  {
    DateInYear(d);
    DateOfIs(DayNumber(d), d);
  }

  lemma EpochYear()
    ensures DaysBeforeYear(1970) == 0
  {
  }

  lemma DateOfIs(days: nat, d: Date)
    requires ValidDate(d) && DaysBeforeYear(d.year) <= days < DaysBeforeYear(d.year + 1) && days == DayNumber(d)
    ensures DateOf(days) == d
  {
    hide DaysBeforeYear, DaysBeforeMonth, Leap, MonthLength, MonthFrom, YearFrom;
    EpochYear();
    SameYear(YearFrom(1970, days), d.year, days);
    YearLength(d.year);
    MonthOfIs(d, days - DaysBeforeYear(d.year));
  }

  lemma MonthOfIs(d: Date, rest: nat)
    requires ValidDate(d) && rest == DaysBeforeMonth(d.year, d.month) + d.day - 1
    ensures rest < DaysBeforeMonth(d.year, 13) && MonthFrom(d.year, 1, rest) == d.month
  {
    hide Leap, MonthLength;
    MonthsGrow(d.year, d.month, 13);
    SameMonth(d.year, MonthFrom(d.year, 1, rest), d.month, rest);
  }

  /** The date after this one. */
  function DayAfter(d: Date): (next: Date)
    requires ValidDate(d)
    ensures ValidDate(next)
  {
    if d.day < MonthLength(d.year, d.month) then d.(day := d.day + 1)
    else if d.month < 12 then Date(d.year, d.month + 1, 1)
    else Date(d.year + 1, 1, 1)
  }

  /** Days are counted from 1 January 1970, one for each date. */
  lemma DaysSucceed(days: nat)
    ensures DateOf(0) == Date(1970, 1, 1)
    ensures DateOf(days + 1) == DayAfter(DateOf(days))
  {
    hide Leap, DateOf, DaysBeforeYear;
    EpochYear();
    DateRoundTrip(Date(1970, 1, 1));
    var d := DateOf(days);
    DayRoundTrip(days);
    YearLength(d.year);
    assert DayNumber(DayAfter(d)) == days + 1;
    DateRoundTrip(DayAfter(d));
  }

  // ------------------------------------------------------------------ instants

  function LocalMs(epochMs: int, offsetSeconds: int): int {
    epochMs + offsetSeconds * 1000
  }

  /** The minute of local time, counted from 1970, that holds an instant. */
  function LocalMinute(epochMs: int, offsetSeconds: int): int {
    LocalMs(epochMs, offsetSeconds) / MinuteMs
  }

  predicate OnMinute(epochMs: int, offsetSeconds: int) {
    LocalMs(epochMs, offsetSeconds) % MinuteMs == 0
  }

  function BreakDown(epochMs: int, offsetSeconds: int): BrokenDownTime
    requires LocalMs(epochMs, offsetSeconds) >= 0
  {
    var adjusted := LocalMs(epochMs, offsetSeconds) / 1000;
    var days := adjusted / 86400;
    var rest := adjusted % 86400;
    BrokenDownTime(DateOf(days), rest / 3600, rest % 3600 / 60, rest % 60, (days + 4) % 7)
  }

  function Compose(t: BrokenDownTime, offsetSeconds: int): int
    requires ValidDate(t.date)
  {
    (DayNumber(t.date) * 86400 + t.hour * 3600 + t.minute * 60 + t.second - offsetSeconds) * 1000
  }

  /** The clock of a zone shows what a clock without an offset shows that many seconds later; both start at zero. */
  lemma ZoneIsAhead(epochMs: int, offsetSeconds: int)
    requires epochMs + 1000 * offsetSeconds >= 0
    ensures BreakDown(epochMs, offsetSeconds) == BreakDown(epochMs + 1000 * offsetSeconds, 0)
    ensures BreakDown(0, 0) == BrokenDownTime(Date(1970, 1, 1), 0, 0, 0, 4)
  {
    hide DateOf, ValidDate;
    ClockStarts();
  }

  lemma ClockStarts()
    ensures BreakDown(0, 0) == BrokenDownTime(Date(1970, 1, 1), 0, 0, 0, 4)
  {
    hide DateOf, ValidDate, DayAfter;
    DaysSucceed(0);
  }

  /** 1 January 1970 was a Thursday, Sunday counting as zero, and every later day is the weekday after its eve. */
  lemma WeekdaysSucceed(epochMs: int, offsetSeconds: int)
    requires LocalMs(epochMs, offsetSeconds) >= 0
    ensures BreakDown(0, 0).weekday == 4
    ensures var today := BreakDown(epochMs, offsetSeconds).weekday;
            BreakDown(epochMs + DayMs, offsetSeconds).weekday == if today == 6 then 0 else today + 1
  {
    hide DateOf;
    var local := LocalMs(epochMs, offsetSeconds) / 1000;
    assert (local + 86400) / 86400 == local / 86400 + 1;
  }

  /** Composing a broken-down instant gives it back, cut to the second. */
  lemma ComposeRoundTrip(epochMs: int, offsetSeconds: int)
    requires LocalMs(epochMs, offsetSeconds) >= 0
    ensures Compose(BreakDown(epochMs, offsetSeconds), offsetSeconds)
            == epochMs - LocalMs(epochMs, offsetSeconds) % 1000
  {
    hide DayNumber, DateOf;
    var adjusted := LocalMs(epochMs, offsetSeconds) / 1000;
    DayRoundTrip(adjusted / 86400);
  }

  /** Breaking down a composed civil time gives it back. */
  lemma BreakDownRoundTrip(t: BrokenDownTime, offsetSeconds: int)
    requires ValidDate(t.date) && 0 <= t.hour < 24 && 0 <= t.minute < 60 && 0 <= t.second < 60
    requires t.weekday == (DayNumber(t.date) + 4) % 7
    ensures LocalMs(Compose(t, offsetSeconds), offsetSeconds) >= 0
    ensures BreakDown(Compose(t, offsetSeconds), offsetSeconds) == t
  {
    hide DayNumber, DateOf;
    DateRoundTrip(t.date);
    var n := DayNumber(t.date);
    var local := LocalMs(Compose(t, offsetSeconds), offsetSeconds);
    var rest := t.hour * 3600 + t.minute * 60 + t.second;
    assert local == (n * 86400 + rest) * 1000;
    assert local / 1000 == n * 86400 + rest;
    assert (n * 86400 + rest) / 86400 == n && (n * 86400 + rest) % 86400 == rest;
  }
}
