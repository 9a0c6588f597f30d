/** The next occurrence of a series: a day-by-day search, and how far it ever has to look. */
module NextOccurrence {
  import opened Text
  import opened Gregorian

  // A series that occurs at one time of day on the selected days.
  datatype Pattern = Pattern(selects: Day -> bool, nanos: int)

  predicate IsPattern(p: Pattern) { 0 <= p.nanos < NANOS_PER_DAY }

  predicate OccursIn(p: Pattern, t: Instant) {
    p.selects(t.day) && t.nanos == p.nanos
  }

  // t is the least occurrence strictly after `after`.
  ghost predicate LeastAfter(p: Pattern, after: Instant, t: Instant) {
    && OccursIn(p, t) && Before(after, t)
    && forall u: Instant :: OccursIn(p, u) && Before(after, u) ==> !Before(u, t)
  }

  // The first day whose occurrence would come after `after`.
  function FirstDay(p: Pattern, after: Instant): Day {
    if after.nanos < p.nanos then after.day else NextDay(after.day)
  }

  lemma AfterMeansFromFirstDay(p: Pattern, after: Instant, u: Instant)
    requires u.nanos == p.nanos
    ensures Before(after, u) <==> Number(FirstDay(p, after)) <= Number(u.day)
  {
    BeforeByDay(after, u);
    BeforeByDay(u, after);
    NumberOrdersDays(after.day, u.day);
  }

  ghost predicate NoneFrom(p: Pattern, first: Day, n: int) {
    forall d: Day :: Number(first) <= Number(d) < Number(first) + n ==> !p.selects(d)
  }

  // A search of at most limit days finds the least occurrence when there is one in reach.
  method SearchAfter(p: Pattern, after: Instant, limit: nat) returns (t: Option<Instant>)
    requires IsPattern(p)
    ensures t.Some? ==> LeastAfter(p, after, t.value)
    ensures t.Some? ==> Number(t.value.day) < Number(FirstDay(p, after)) + limit
    ensures t.None? <==> NoneFrom(p, FirstDay(p, after), limit)
  {
    var first := FirstDay(p, after);
    var d := first;
    var i := 0;
    while i < limit
      invariant i <= limit && Number(d) == Number(first) + i
      invariant NoneFrom(p, first, i)
    {
      if p.selects(d) {
        var found := Time(d, p.nanos);
        FoundIsLeast(p, after, found, i);
        return Some(found);
      }
      NoneYet(p, first, d, i);
      d := NextDay(d);
      i := i + 1;
    }
    t := None;
  }

  lemma FoundIsLeast(p: Pattern, after: Instant, t: Instant, i: nat)
    requires IsPattern(p) && OccursIn(p, t)
    requires Number(t.day) == Number(FirstDay(p, after)) + i && NoneFrom(p, FirstDay(p, after), i)
    ensures LeastAfter(p, after, t)
  {
    AfterMeansFromFirstDay(p, after, t);
    forall u: Instant | OccursIn(p, u) && Before(after, u) ensures !Before(u, t) {
      AfterMeansFromFirstDay(p, after, u);
      BeforeByDay(t, u);
      NumberOrdersDays(t.day, u.day);
    }
  }

  lemma NoneYet(p: Pattern, first: Day, d: Day, i: nat)
    requires NoneFrom(p, first, i) && Number(d) == Number(first) + i && !p.selects(d)
    ensures NoneFrom(p, first, i + 1)
  {
    forall e: Day | Number(first) <= Number(e) < Number(first) + i + 1 ensures !p.selects(e) {
      NumberOrdersDays(d, e);
    }
  }

  // ---------- days further on ----------

  function DaysLater(d: Day, n: nat): (e: Day)
    ensures Number(e) == Number(d) + n
    decreases n
  {
    if n == 0 then d else DaysLater(NextDay(d), n - 1)
  }

  lemma {:induction false} WeekdayLater(x: int, w: int) returns (k: nat)
    requires 0 <= w < 7
    ensures k < 7 && (x + k) % 7 == w
  {
    k := (w - x) % 7;
    assert x + k == w - 7 * ((w - x) / 7);
    ModOf(x + k, w, -((w - x) / 7));
  }

  lemma ModOf(y: int, w: int, q: int)
    requires 0 <= w < 7 && y == w + 7 * q
    ensures y % 7 == w
  {
  }

  // Every weekday comes within a week.
  lemma WeekdayWithin(first: Day, w: int) returns (d: Day)
    requires 0 <= w < 7
    ensures Weekday(d) == w && Number(first) <= Number(d) < Number(first) + 7
  {
    var k := WeekdayLater(Number(first), w);
    d := DaysLater(first, k);
  }

  // ---------- months ----------

  function NextMonth(y: int, m: int): (int, int) {
    if m == 12 then (y + 1, 1) else (y, m + 1)
  }

  lemma NumberInNextMonth(d: Day, day: int)
    requires var (y, m) := NextMonth(d.year, d.month); 1 <= m <= 12 && 1 <= day <= DaysIn(y, m)
    ensures var (y, m) := NextMonth(d.year, d.month);
            Number(Date(y, m, day)) == Number(d) + DaysIn(d.year, d.month) - d.day + day
  {
    if d.month == 12 {
      YearStep(d.year);
      MonthTable(d.year, 12);
    }
  }

  // A short month has long neighbours.
  lemma LongNeighbours(y: int, m: int)
    requires 1 <= m <= 12
    ensures var (y1, m1) := NextMonth(y, m);
            DaysIn(y, m) < 31 ==> DaysIn(y1, m1) == 31
    ensures var (y1, m1) := NextMonth(y, m);
            DaysIn(y1, m1) < 31 ==> DaysIn(y, m) == 31
  {
  }

  // Every day of the month comes within 61 days.
  lemma MonthDayWithin(first: Day, day: int) returns (d: Day)
    requires 1 <= day <= 31
    ensures d.day == day && Number(first) <= Number(d) < Number(first) + 61
  {
    var (y1, m1) := NextMonth(first.year, first.month);
    LongNeighbours(first.year, first.month);
    if first.day <= day <= DaysIn(first.year, first.month) {
      d := Date(first.year, first.month, day);
    } else if day <= DaysIn(y1, m1) {
      d := Date(y1, m1, day);
      NumberInNextMonth(first, day);
    } else {
      var (y2, m2) := NextMonth(y1, m1);
      LongNeighbours(y1, m1);
      NumberInNextMonth(first, 1);
      NumberInNextMonth(Date(y1, m1, 1), day);
      d := Date(y2, m2, day);
    }
  }

  // ---------- years ----------

  predicate CommonYears(y: int, k: nat) {
    forall x :: y <= x < y + k ==> !Leap(x)
  }

  lemma LeapSoon(y: int) returns (k: nat)
    ensures k < 8 && Leap(y + k) && CommonYears(y, k)
  {
    var far := SomeLeap(y);
    k := 0;
    while !Leap(y + k)
      invariant k <= far && CommonYears(y, k)
      decreases far - k
    {
      k := k + 1;
    }
  }

  lemma SomeLeap(y: int) returns (k: nat)
    ensures k < 8 && Leap(y + k)
  {
    k := (-y) % 4;
    assert y + k == 4 * -(-y / 4);
    FoursDivide(y + k, -(-y / 4));
    if !Leap(y + k) {
      HundredThenFour(y + k);
      k := k + 4;
    }
  }

  lemma FoursDivide(y: int, q: int)
    requires y == 4 * q
    ensures y % 4 == 0 && (y + 4) % 4 == 0
  {
    assert y + 4 == 4 * (q + 1);
  }

  lemma HundredThenFour(y: int)
    requires y % 4 == 0 && y % 100 == 0
    ensures Leap(y + 4)
  {
    FoursDivide(y, y / 4);
    assert y + 4 == 100 * (y / 100) + 4;
    RestOfHundred(y + 4, y / 100);
  }

  lemma RestOfHundred(x: int, q: int)
    requires x == 100 * q + 4
    ensures x % 100 == 4
  {
  }

  lemma {:induction false} CommonYearsAddUp(y: int, k: nat)
    requires CommonYears(y, k)
    ensures DaysBeforeYear(y + k) == DaysBeforeYear(y) + 365 * k
  {
    if k > 0 {
      CommonYearsAddUp(y, k - 1);
      YearStep(y + k - 1);
      assert !Leap(y + (k - 1));
    }
  }

  lemma LeapDayOf(y: int)
    requires Leap(y)
    ensures Number(Date(y, 2, 29)) == DaysBeforeYear(y) + 60
  {
    MonthTable(y, 2);
  }

  lemma LeapDayWithin(first: Day) returns (d: Day)
    ensures d.month == 2 && d.day == 29 && Number(first) <= Number(d) < Number(first) + 2921
  {
    DayWithinYear(first);
    var early := DaysBeforeMonth(first.year, first.month) + first.day <= 60;
    var y := if early then first.year else first.year + 1;
    var k := LeapSoon(y);
    CommonYearsAddUp(y, k);
    YearStep(first.year);
    LeapDayOf(y + k);
    d := Date(y + k, 2, 29);
  }

  // Every date of a year comes within 2921 days.
  lemma DateWithin(first: Day, anchor: Day) returns (d: Day)
    ensures d.month == anchor.month && d.day == anchor.day
    ensures Number(first) <= Number(d) < Number(first) + 2921
  {
    if anchor.month == 2 && anchor.day == 29 {
      d := LeapDayWithin(first);
    } else {
      d := Date(first.year, anchor.month, anchor.day);
      var e := Date(first.year + 1, anchor.month, anchor.day);
      NumberOrdersDays(d, first);
      NumberOrdersDays(first, e);
      DayWithinYear(first);
      DayWithinYear(d);
      DayWithinYear(e);
      YearStep(first.year);
      if Number(d) < Number(first) { d := e; }
    }
  }
}
