// Cron schedules: the day-skipping search for the next firing time.

module Cron {
  import opened Json
  import opened Calendar

  datatype CronExpression =
    | Relative(intervalMs: int)
    | Scheduled(minutes: seq<int>, hours: seq<int>, dom: set<int>, months: set<int>, dow: set<int>,
                years: seq<int>, domRestricted: bool, dowRestricted: bool)

  ghost predicate Ascending(s: seq<int>) {
    forall i, j :: 0 <= i < j < |s| ==> s[i] < s[j]
  }

  /** What parsing leaves: a positive interval, or ordered, in-range minutes and hours and ordered years. */
  ghost predicate Parsed(x: CronExpression) {
    if x.Relative? then x.intervalMs > 0 else
      && Ascending(x.minutes) && Ascending(x.hours) && Ascending(x.years)
      && (forall i :: 0 <= i < |x.minutes| ==> 0 <= x.minutes[i] < 60)
      && (forall i :: 0 <= i < |x.hours| ==> 0 <= x.hours[i] < 24)
  }

  /** Vixie cron's rule: when both day fields are restricted, either may match. */
  predicate DayOk(x: CronExpression, day: int, weekday: int)
    requires x.Scheduled?
  {
    if x.domRestricted && x.dowRestricted then day in x.dom || weekday in x.dow else day in x.dom && weekday in x.dow
  }

  /** A field that was given as `*` names every day. */
  predicate StarsCover(x: CronExpression)
    requires x.Scheduled?
  {
    && (!x.domRestricted ==> forall day :: 1 <= day <= 31 ==> day in x.dom)
    && (!x.dowRestricted ==> forall weekday :: 0 <= weekday <= 6 ==> weekday in x.dow)
  }

  /** Of two day fields that are given either is enough; if one is given it decides; if none is, any day will do. */
  lemma DayRule(x: CronExpression, day: int, weekday: int)
    requires x.Scheduled? && StarsCover(x) && 1 <= day <= 31 && 0 <= weekday <= 6
    ensures x.domRestricted && x.dowRestricted && day in x.dom ==> DayOk(x, day, weekday)
    ensures x.domRestricted && x.dowRestricted && weekday in x.dow ==> DayOk(x, day, weekday)
    ensures day !in x.dom && weekday !in x.dow ==> !DayOk(x, day, weekday)
    ensures x.domRestricted && !x.dowRestricted ==> (DayOk(x, day, weekday) <==> day in x.dom)
    ensures !x.domRestricted && x.dowRestricted ==> (DayOk(x, day, weekday) <==> weekday in x.dow)
    ensures !x.domRestricted && !x.dowRestricted ==> DayOk(x, day, weekday)
  {
  }

  predicate DayMatches(x: CronExpression, d: Date, weekday: int)
    requires x.Scheduled?
  {
    d.month in x.months && (x.years == [] || d.year in x.years) && DayOk(x, d.day, weekday)
  }

  predicate Matches(x: CronExpression, t: BrokenDownTime)
    requires x.Scheduled?
  {
    && (x.years == [] || t.date.year in x.years) && t.date.month in x.months
    && t.hour in x.hours && t.minute in x.minutes
    && DayOk(x, t.date.day, t.weekday)
  }

  // ------------------------------------------------------------------ minutes of local time

  const Window := 1500

  /** The schedule fires in this minute of local time, counted from 1970. */
  predicate Fires(x: CronExpression, k: nat)
    requires x.Scheduled?
  {
    && DayMatches(x, DateOf(k / 1440), (k / 1440 + 4) % 7)
    && k % 1440 / 60 in x.hours && k % 1440 % 60 in x.minutes
  }

  /** An instant on a minute boundary of local time matches exactly when its minute fires. */
  lemma MatchesIsFires(x: CronExpression, epochMs: int, offsetSeconds: int)
    requires x.Scheduled? && LocalMs(epochMs, offsetSeconds) >= 0 && OnMinute(epochMs, offsetSeconds)
    ensures Matches(x, BreakDown(epochMs, offsetSeconds)) <==> Fires(x, LocalMinute(epochMs, offsetSeconds))
  {
    hide DayOk, DateOf;
    var local := LocalMs(epochMs, offsetSeconds);
    var k := local / MinuteMs;
    MinuteParts(local, k);
  }

  lemma MinuteParts(local: int, k: int)
    requires local >= 0 && local == k * 60000
    ensures var adjusted := local / 1000;
            && adjusted / 86400 == k / 1440
            && adjusted % 86400 / 3600 == k % 1440 / 60
            && adjusted % 86400 % 3600 / 60 == k % 1440 % 60
  {
    var adjusted := local / 1000;
    assert adjusted == k * 60;
    var d, m := k / 1440, k % 1440;
    assert adjusted == d * 86400 + m * 60;
    assert adjusted / 86400 == d && adjusted % 86400 == m * 60;
    var h, n := m / 60, m % 60;
    assert m * 60 == h * 3600 + n * 60;
    assert m * 60 / 3600 == h && m * 60 % 3600 == n * 60;
  }

  ghost predicate QuietBetween(x: CronExpression, from: int, to: int)
    requires x.Scheduled?
  {
    forall k: nat :: from < k < to ==> !Fires(x, k)
  }

  // ------------------------------------------------------------------ the search inside one day

  /** All pairs of the first `i` hours, and the first `j` minutes of the next hour, are at or before `first`. */
  ghost predicate Tried(x: CronExpression, i: int, j: int, first: int)
    requires x.Scheduled? && 0 <= i <= |x.hours| && 0 <= j <= |x.minutes|
  {
    && (forall a, b :: 0 <= a < i && 0 <= b < |x.minutes| ==> x.hours[a] * 60 + x.minutes[b] <= first)
    && (i < |x.hours| ==> forall b :: 0 <= b < j ==> x.hours[i] * 60 + x.minutes[b] <= first)
  }

  /** The first minute of the day after `first` that an hour and a minute of the schedule name. */
  method FirstInDay(x: CronExpression, first: int) returns (r: Option<nat>)
    requires x.Scheduled? && Parsed(x)
    ensures r.Some? ==>
              && first < r.value < 1440 && r.value / 60 in x.hours && r.value % 60 in x.minutes
              && forall m: nat :: first < m < r.value ==> !(m / 60 in x.hours && m % 60 in x.minutes)
    ensures r.None? ==> forall m: nat :: first < m ==> !(m / 60 in x.hours && m % 60 in x.minutes)
  {
    var i := 0;
    while i < |x.hours|
      invariant 0 <= i <= |x.hours| && Tried(x, i, 0, first)
    {
      var j := 0;
      while j < |x.minutes|
        invariant 0 <= j <= |x.minutes| && Tried(x, i, j, first)
      {
        var minuteOfDay := x.hours[i] * 60 + x.minutes[j];
        if minuteOfDay > first {
          return Some(minuteOfDay);
        }
        j := j + 1;
      }
      i := i + 1;
    }
    return None;
  }

  // ------------------------------------------------------------------ the search over days

  /** No day from `day` on can match once its year is past the last legal one. */
  lemma PastLastYear(x: CronExpression, day: nat, now: int)
    requires x.Scheduled? && Parsed(x) && x.years != [] && QuietBetween(x, now, day * 1440)
    requires DateOf(day).year > x.years[|x.years| - 1]
    ensures forall to :: QuietBetween(x, now, to)
  {
    hide DateOf;
    assert forall i :: 0 <= i < |x.years| ==> x.years[i] <= x.years[|x.years| - 1];
    forall k: nat | k >= day * 1440
      ensures !Fires(x, k)
    {
      YearMonotone(day, k / 1440);
    }
  }

  lemma QuietDay(x: CronExpression, day: nat, first: int, until: int)
    requires x.Scheduled? && 0 <= until <= 1440
    requires DayMatches(x, DateOf(day), (day + 4) % 7) ==>
               forall m: nat :: first < m < until ==> !(m / 60 in x.hours && m % 60 in x.minutes)
    ensures forall k: nat :: k / 1440 == day && first < k - day * 1440 < until ==> !Fires(x, k)
  {
    hide DayMatches, DateOf;
  }

  /** The first firing minute of one day, `after` the given minute of it. */
  method TryDay(x: CronExpression, dayMs: int, ghost day: nat, broken: BrokenDownTime, after: int,
                ghost offsetSeconds: int)
      returns (r: Option<int>, ghost k: nat)
    requires x.Scheduled? && Parsed(x) && -1 <= after < 1440 && LocalMs(dayMs, offsetSeconds) == day * DayMs
    requires broken.date == DateOf(day) && broken.weekday == (day + 4) % 7
    ensures r.Some? ==>
              && LocalMs(r.value, offsetSeconds) == k * MinuteMs
              && day * 1440 + after < k < (day + 1) * 1440
              && Fires(x, k) && QuietBetween(x, day * 1440 + after, k)
    ensures r.None? ==> QuietBetween(x, day * 1440 + after, (day + 1) * 1440)
  {
    hide DateOf, DayMatches, Parsed, Fires;
    k := 0;
    if DayMatches(x, broken.date, broken.weekday) {
      var found := FirstInDay(x, after);
      if found.Some? {
        QuietDay(x, day, after, found.value);
        FoundMinute(x, dayMs, day, found.value, offsetSeconds);
        r, k := Some(dayMs + found.value * MinuteMs), day * 1440 + found.value;
        return;
      }
    }
    QuietDay(x, day, after, 1440);
    r := None;
  }

  lemma QuietEmpty(x: CronExpression, from: int, to: int)
    requires x.Scheduled? && to <= from + 1
    ensures QuietBetween(x, from, to)
  {
  }

  lemma QuietJoins(x: CronExpression, from: int, mid: int, to: int)
    requires x.Scheduled? && 0 <= mid && QuietBetween(x, from, mid)
    requires QuietBetween(x, if from < mid then mid - 1 else from, to)
    ensures QuietBetween(x, from, to)
  {
    hide Fires;
  }

  /** What the search starts from: today's midnight, and the minute of the day that is running. */
  lemma SearchStart(epochMs: int, offsetSeconds: int, midnight: int)
    requires LocalMs(epochMs, offsetSeconds) >= 0
    requires midnight == Compose(BreakDown(epochMs, offsetSeconds).(hour := 0, minute := 0, second := 0), offsetSeconds)
    ensures var now := LocalMinute(epochMs, offsetSeconds);
            && now >= 0 && LocalMs(midnight, offsetSeconds) == now / 1440 * DayMs
            && 0 <= (epochMs - midnight) / MinuteMs < 1440
            && now / 1440 * 1440 + (epochMs - midnight) / MinuteMs == now
  {
    Midnight(epochMs, offsetSeconds);
  }

  lemma Arrived(epochMs: int, offsetSeconds: int, value: int, k: int, day: int)
    requires LocalMs(value, offsetSeconds) == k * MinuteMs && day * 1440 <= k < (day + 1) * 1440
    requires k > LocalMinute(epochMs, offsetSeconds)
    ensures value > epochMs && OnMinute(value, offsetSeconds)
    ensures LocalMinute(value, offsetSeconds) == k && k / 1440 == day
  {
  }

  /** The walk over the days of the window, from today's midnight. */
  method SearchDays(x: CronExpression, midnight: int, firstMinute: int, offsetSeconds: int, ghost today: nat)
      returns (r: Option<int>, ghost k: nat)
    requires x.Scheduled? && Parsed(x) && LocalMs(midnight, offsetSeconds) == today * DayMs && 0 <= firstMinute < 1440
    ensures r.Some? ==>
              && LocalMs(r.value, offsetSeconds) == k * MinuteMs
              && today * 1440 + firstMinute < k < (today + Window + 1) * 1440
              && Fires(x, k) && QuietBetween(x, today * 1440 + firstMinute, k)
    ensures r.None? ==> QuietBetween(x, today * 1440 + firstMinute, (today + Window + 1) * 1440)
  {
    hide DateOf, DayNumber, DayMatches, BreakDown, Fires, QuietBetween, Parsed;
    ghost var now := today * 1440 + firstMinute;
    QuietEmpty(x, now, today * 1440);
    var offset := 0;
    while offset <= Window
      invariant 0 <= offset <= Window + 1
      invariant QuietBetween(x, now, (today + offset) * 1440)
    {
      var dayMs := midnight + offset * DayMs;
      DayStart(dayMs, today + offset, offsetSeconds);
      var broken := BreakDown(dayMs, offsetSeconds);
      if x.years != [] && broken.date.year > x.years[|x.years| - 1] {
        PastLastYear(x, today + offset, now);
        r, k := None, 0;
        return;
      }
      var after := if offset == 0 then firstMinute else -1;
      r, k := TryDay(x, dayMs, today + offset, broken, after, offsetSeconds);
      if r.Some? {
        QuietJoins(x, now, (today + offset) * 1440, k);
        return;
      }
      QuietJoins(x, now, (today + offset) * 1440, (today + offset + 1) * 1440);
      offset := offset + 1;
    }
    r, k := None, 0;
  }

  /**
   * `r` is the next firing time after an instant: the least later minute of local time that matches, or
   * none within the window.
   */
  ghost predicate IsNext(x: CronExpression, epochMs: int, offsetSeconds: int, r: Option<int>) {
    if x.Relative? then r == Some(epochMs + x.intervalMs)
    else
      var now := LocalMinute(epochMs, offsetSeconds);
      if r.None? then QuietBetween(x, now, (now / 1440 + Window + 1) * 1440)
      else
        var k := LocalMinute(r.value, offsetSeconds);
        && r.value > epochMs && OnMinute(r.value, offsetSeconds)
        && now < k < (now / 1440 + Window + 1) * 1440 && k >= 0
        && Fires(x, k) && QuietBetween(x, now, k)
  }

  /** There is one next firing time. */
  lemma NextUnique(x: CronExpression, epochMs: int, offsetSeconds: int, r: Option<int>, t: Option<int>)
    requires LocalMs(epochMs, offsetSeconds) >= 0
    requires IsNext(x, epochMs, offsetSeconds, r) && IsNext(x, epochMs, offsetSeconds, t)
    ensures r == t
  {
    hide Fires;
    if x.Scheduled? && r.Some? && t.Some? {
      var k, m := LocalMinute(r.value, offsetSeconds), LocalMinute(t.value, offsetSeconds);
      assert !(k < m) && !(m < k);
    }
  }

  /** No instant on a minute boundary between the two matches the schedule. */
  lemma NothingBefore(x: CronExpression, epochMs: int, offsetSeconds: int, r: Option<int>, t: int)
    requires x.Scheduled? && LocalMs(epochMs, offsetSeconds) >= 0 && IsNext(x, epochMs, offsetSeconds, r)
    requires epochMs < t && OnMinute(t, offsetSeconds)
    requires if r.Some? then t < r.value
             else LocalMinute(t, offsetSeconds) / 1440 <= LocalMinute(epochMs, offsetSeconds) / 1440 + 1500
    ensures LocalMs(t, offsetSeconds) >= 0 && !Matches(x, BreakDown(t, offsetSeconds))
  {
    hide Fires, Matches, BreakDown;
    MatchesIsFires(x, t, offsetSeconds);
  }

  /** The firing time found is an instant whose civil time matches. */
  lemma NextMatches(x: CronExpression, epochMs: int, offsetSeconds: int, t: int)
    requires x.Scheduled? && LocalMs(epochMs, offsetSeconds) >= 0 && IsNext(x, epochMs, offsetSeconds, Some(t))
    ensures t > epochMs && LocalMs(t, offsetSeconds) >= 0 && Matches(x, BreakDown(t, offsetSeconds))
  {
    hide Fires, Matches, BreakDown;
    MatchesIsFires(x, t, offsetSeconds);
  }

  method NextAfter(x: CronExpression, epochMs: int, offsetSeconds: int) returns (r: Option<int>)
    requires Parsed(x) && LocalMs(epochMs, offsetSeconds) >= 0
    ensures IsNext(x, epochMs, offsetSeconds, r)
    ensures r.Some? ==> r.value > epochMs
  {
    if x.Relative? {
      assert x.intervalMs > 0;
      return Some(epochMs + x.intervalMs);
    }
    hide DateOf, DayNumber, Compose, BreakDown, Fires, QuietBetween, Parsed;
    var start := BreakDown(epochMs, offsetSeconds);
    var midnight := Compose(start.(hour := 0, minute := 0, second := 0), offsetSeconds);
    SearchStart(epochMs, offsetSeconds, midnight);
    var firstMinute := (epochMs - midnight) / MinuteMs;
    ghost var today: nat := LocalMinute(epochMs, offsetSeconds) / 1440;
    ghost var k: nat;
    r, k := SearchDays(x, midnight, firstMinute, offsetSeconds, today);
    if r.Some? {
      Arrived(epochMs, offsetSeconds, r.value, k, k / 1440);
    }
  }

  lemma Midnight(epochMs: int, offsetSeconds: int)
    requires LocalMs(epochMs, offsetSeconds) >= 0
    ensures var start := BreakDown(epochMs, offsetSeconds);
            var midnight := Compose(BrokenDownTime(start.date, 0, 0, 0, start.weekday), offsetSeconds);
            var now := LocalMs(epochMs, offsetSeconds) / MinuteMs;
            && LocalMs(midnight, offsetSeconds) == now / 1440 * DayMs
            && (epochMs - midnight) / MinuteMs == now % 1440
            && midnight + (now % 1440) * MinuteMs <= epochMs < midnight + (now % 1440 + 1) * MinuteMs
  {
    hide DateOf, DayNumber;
    var local := LocalMs(epochMs, offsetSeconds);
    var days := local / 1000 / 86400;
    DayRoundTrip(days);
    DaysOfLocal(local);
  }

  lemma DaysOfLocal(local: int)
    requires local >= 0
    ensures local / 1000 / 86400 == local / MinuteMs / 1440
    ensures (local - local / MinuteMs / 1440 * DayMs) / MinuteMs == local / MinuteMs % 1440
  {
    var k := local / MinuteMs;
    var d := k / 1440;
    assert k == d * 1440 + k % 1440;
    var rest := local - d * DayMs;
    assert 0 <= rest < DayMs;
    assert local / 1000 == d * 86400 + rest / 1000;
  }

  lemma DayStart(dayMs: int, day: nat, offsetSeconds: int)
    requires LocalMs(dayMs, offsetSeconds) == day * DayMs
    ensures BreakDown(dayMs, offsetSeconds).date == DateOf(day)
    ensures BreakDown(dayMs, offsetSeconds).weekday == (day + 4) % 7
  {
    hide DateOf, LocalMs;
  }

  lemma FoundMinute(x: CronExpression, dayMs: int, day: nat, m: nat, offsetSeconds: int)
    requires x.Scheduled? && m < 1440 && LocalMs(dayMs, offsetSeconds) == day * DayMs
    requires DayMatches(x, DateOf(day), (day + 4) % 7) && m / 60 in x.hours && m % 60 in x.minutes
    ensures LocalMs(dayMs + m * MinuteMs, offsetSeconds) == (day * 1440 + m) * MinuteMs
    ensures Fires(x, day * 1440 + m)
  {
    hide DayMatches, DateOf;
    assert (day * 1440 + m) / 1440 == day && (day * 1440 + m) % 1440 == m;
  }
}
