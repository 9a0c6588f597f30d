/** The proleptic Gregorian calendar: days, their numbers and weekdays, and instants in UTC. */
module Gregorian {
  datatype Date = Date(year: int, month: int, day: int)

  predicate Leap(y: int) {
    y % 4 == 0 && (y % 100 != 0 || y % 400 == 0)
  }

  function DaysIn(y: int, m: int): (n: int)
    requires 1 <= m <= 12
    ensures 28 <= n <= 31
  {
    if m == 2 then (if Leap(y) then 29 else 28)
    else if m == 4 || m == 6 || m == 9 || m == 11 then 30
    else 31
  }

  predicate IsDate(d: Date) {
    1 <= d.month <= 12 && 1 <= d.day <= DaysIn(d.year, d.month)
  }

  type Day = d: Date | IsDate(d) witness Date(1, 1, 1)

  function DaysBeforeYear(y: int): int {
    365 * (y - 1) + (y - 1) / 4 - (y - 1) / 100 + (y - 1) / 400
  }

  function DaysBeforeMonth(y: int, m: int): int
    requires 1 <= m <= 12
  {
    if m == 1 then 0 else DaysBeforeMonth(y, m - 1) + DaysIn(y, m - 1)
  }

  // 1 January of year 1 is day 1.
  function Number(d: Day): int {
    DaysBeforeYear(d.year) + DaysBeforeMonth(d.year, d.month) + d.day
  }

  // Sunday is 0, as in time.Weekday and in cron.
  function Weekday(d: Day): (w: int)
    ensures 0 <= w <= 6
  {
    Number(d) % 7
  }

  lemma MonthTable(y: int, m: int)
    requires 1 <= m <= 12
    ensures DaysBeforeMonth(y, m) ==
            [0, 31, 59, 90, 120, 151, 181, 212, 243, 273, 304, 334][m - 1] + if m > 2 && Leap(y) then 1 else 0
  {
    if m > 1 { MonthTable(y, m - 1); }
  }

  function YearLength(y: int): int {
    if Leap(y) then 366 else 365
  }

  lemma NextQuotient(x: int, c: int)
    requires c == 4 || c == 100 || c == 400
    ensures (x + 1) / c == x / c + if (x + 1) % c == 0 then 1 else 0
  {
    if c == 4 {
      assert x == 4 * (x / 4) + x % 4;
    } else if c == 100 {
      assert x == 100 * (x / 100) + x % 100;
    } else {
      assert x == 400 * (x / 400) + x % 400;
    }
  }

  lemma YearStep(y: int)
    ensures DaysBeforeYear(y + 1) == DaysBeforeYear(y) + YearLength(y)
  {
    NextQuotient(y - 1, 4);
    NextQuotient(y - 1, 100);
    NextQuotient(y - 1, 400);
    LeapByHundred(y);
  }

  lemma LeapByHundred(y: int)
    ensures y % 400 == 0 ==> y % 100 == 0
    ensures y % 100 == 0 ==> y % 4 == 0
  {
    if y % 400 == 0 { HundredsOf(y, y / 400); }
    if y % 100 == 0 { FoursOf(y, y / 100); }
  }

  lemma HundredsOf(y: int, q: int)
    requires y == 400 * q
    ensures y % 100 == 0
  {
    assert y == 100 * (4 * q);
  }

  lemma FoursOf(y: int, q: int)
    requires y == 100 * q
    ensures y % 4 == 0
  {
    assert y == 4 * (25 * q);
  }

  lemma YearsGrow(y: int, z: int)
    requires y < z
    ensures DaysBeforeYear(y) + YearLength(y) <= DaysBeforeYear(z)
    decreases z - y
  {
    YearStep(y);
    if y + 1 < z { YearsGrow(y + 1, z); }
  }

  function NextDay(d: Day): (n: Day)
    ensures Number(n) == Number(d) + 1
  {
    if d.day < DaysIn(d.year, d.month) then Date(d.year, d.month, d.day + 1)
    else if d.month < 12 then Date(d.year, d.month + 1, 1)
    else
      YearStep(d.year); MonthTable(d.year, 12);
      Date(d.year + 1, 1, 1)
  }

  predicate EarlierDate(a: Date, b: Date) {
    || a.year < b.year
    || (a.year == b.year && a.month < b.month)
    || (a.year == b.year && a.month == b.month && a.day < b.day)
  }

  lemma DaysBeforeMonthGrows(y: int, m: int, n: int)
    requires 1 <= m < n <= 12
    ensures DaysBeforeMonth(y, m) + DaysIn(y, m) <= DaysBeforeMonth(y, n)
  {
    if m + 1 < n { DaysBeforeMonthGrows(y, m, n - 1); }
  }

  // Day numbers follow the calendar order, so two days with one number are one day.
  lemma NumberOrdersDays(a: Day, b: Day)
    ensures Number(a) < Number(b) <==> EarlierDate(a, b)
    ensures Number(a) == Number(b) <==> a == b
  {
    if EarlierDate(a, b) { NumberGrows(a, b); }
    if EarlierDate(b, a) { NumberGrows(b, a); }
  }

  lemma DayWithinYear(d: Day)
    ensures 1 <= DaysBeforeMonth(d.year, d.month) + d.day <= YearLength(d.year)
  {
    MonthTable(d.year, d.month);
    MonthTable(d.year, 12);
    if d.month < 12 { DaysBeforeMonthGrows(d.year, d.month, 12); }
  }

  lemma NumberGrows(a: Day, b: Day)
    requires EarlierDate(a, b)
    ensures Number(a) < Number(b)
  {
    if a.year < b.year {
      YearsGrow(a.year, b.year);
      DayWithinYear(a);
      DayWithinYear(b);
    } else if a.month < b.month {
      DaysBeforeMonthGrows(a.year, a.month, b.month);
    }
  }

  // ---------- the 400-year cycle ----------

  const CYCLE := 146097

  // The same month and day 400 * k years later.
  function Cycles(d: Day, k: int): (r: Day)
  {
    LeapRepeats(d.year, k);
    Date(d.year + 400 * k, d.month, d.day)
  }

  lemma DivideShifted(x: int, k: int)
    ensures (x + 400 * k) / 4 == x / 4 + 100 * k && (x + 400 * k) % 4 == x % 4
    ensures (x + 400 * k) / 100 == x / 100 + 4 * k && (x + 400 * k) % 100 == x % 100
    ensures (x + 400 * k) / 400 == x / 400 + k && (x + 400 * k) % 400 == x % 400
  {
    assert x + 400 * k == 4 * (x / 4 + 100 * k) + x % 4;
    assert x + 400 * k == 100 * (x / 100 + 4 * k) + x % 100;
    assert x + 400 * k == 400 * (x / 400 + k) + x % 400;
  }

  lemma LeapRepeats(y: int, k: int)
    ensures Leap(y + 400 * k) <==> Leap(y)
  {
    DivideShifted(y, k);
  }

  lemma {:induction false} MonthsRepeat(y: int, k: int, m: int)
    requires 1 <= m <= 12
    ensures DaysBeforeMonth(y + 400 * k, m) == DaysBeforeMonth(y, m)
    ensures DaysIn(y + 400 * k, m) == DaysIn(y, m)
  {
    LeapRepeats(y, k);
    if m > 1 { MonthsRepeat(y, k, m - 1); }
  }

  lemma YearsRepeat(y: int, k: int)
    ensures DaysBeforeYear(y + 400 * k) == DaysBeforeYear(y) + CYCLE * k
  {
    DivideShifted(y - 1, k);
  }

  lemma CycleIsWholeWeeks(n: int, k: int)
    ensures (n + CYCLE * k) % 7 == n % 7
  {
    assert n + CYCLE * k == 7 * (n / 7 + 20871 * k) + n % 7;
  }

  lemma CyclesKeepWeekday(d: Day, k: int)
    ensures Number(Cycles(d, k)) == Number(d) + CYCLE * k
    ensures Weekday(Cycles(d, k)) == Weekday(d)
  {
    MonthsRepeat(d.year, k, d.month);
    YearsRepeat(d.year, k);
    CycleIsWholeWeeks(Number(d), k);
  }

  // ---------- instants ----------

  const NANOS_PER_SECOND := 1_000_000_000
  const NANOS_PER_DAY := 86400 * NANOS_PER_SECOND

  datatype Time = Time(day: Day, nanos: int)

  predicate IsTime(t: Time) {
    0 <= t.nanos < NANOS_PER_DAY
  }

  type Instant = t: Time | IsTime(t) witness Time(Date(1, 1, 1), 0)

  function At(t: Instant): int {
    Number(t.day) * NANOS_PER_DAY + t.nanos
  }

  predicate Before(a: Instant, b: Instant) {
    At(a) < At(b)
  }

  lemma BeforeByDay(a: Instant, b: Instant)
    ensures Number(a.day) < Number(b.day) ==> Before(a, b)
    ensures a.day == b.day ==> (Before(a, b) <==> a.nanos < b.nanos)
  {
  }

  function Clock(hour: int, minute: int, second: int): (n: int)
    requires 0 <= hour < 24 && 0 <= minute < 60 && 0 <= second < 60
    ensures 0 <= n < NANOS_PER_DAY
  {
    ((hour * 60 + minute) * 60 + second) * NANOS_PER_SECOND
  }

  function Seconds(t: Instant): (n: int)
    ensures 0 <= n < 86400
  {
    t.nanos / NANOS_PER_SECOND
  }

  function Hour(t: Instant): (h: int)
    ensures 0 <= h < 24
  {
    Seconds(t) / 3600
  }

  function Minute(t: Instant): (m: int)
    ensures 0 <= m < 60
  {
    Seconds(t) / 60 % 60
  }

  function Second(t: Instant): (s: int)
    ensures 0 <= s < 60
  {
    Seconds(t) % 60
  }

  lemma ClockSeconds(d: Day, n: int)
    requires 0 <= n < 86400
    ensures Seconds(Time(d, n * NANOS_PER_SECOND)) == n
  {
  }

  lemma ClockParts(d: Day, h: int, m: int, s: int)
    requires 0 <= h < 24 && 0 <= m < 60 && 0 <= s < 60
    ensures var t := Time(d, Clock(h, m, s)); Hour(t) == h && Minute(t) == m && Second(t) == s
  {
    ClockSeconds(d, (h * 60 + m) * 60 + s);
  }
}
