/** shiftRecurrenceFromCompletion: the re-anchored series, its anchor and its next occurrence. */
module CompletionShift {
  import opened Text
  import opened Gregorian
  import opened CronRule
  import opened RRule
  import opened RuleRewrite
  import RuleFields
  import opened RRuleShift
  import opened CronShift
  import opened NextOccurrence

  // ---------- cron: every series comes round within a fixed number of days ----------

  function Reach(series: Series): nat {
    match series case EveryDay => 1 case EveryWeek => 7 case EveryMonth => 61 case EveryYear => 2921
  }

  lemma SeriesReach(series: Series, a: Day, first: Day) returns (d: Day)
    ensures InSeries(series, a, d) && Number(first) <= Number(d) < Number(first) + Reach(series)
  {
    match series
    case EveryDay => d := first;
    case EveryWeek => d := WeekdayWithin(first, Weekday(a));
    case EveryMonth => d := MonthDayWithin(first, a.day);
    case EveryYear => d := DateWithin(first, a);
  }

  // cronexpr's Next: the least instant strictly after `after` at which c fires.
  ghost predicate NextFire(c: Cron, after: Instant, t: Instant) {
    Fires(c, t) && Before(after, t) && forall u: Instant :: Fires(c, u) && Before(after, u) ==> !Before(u, t)
  }

  function CronPattern(c: Cron, h: int, m: int): Pattern
    requires 0 <= h < 24 && 0 <= m < 60
  {
    Pattern((d: Day) => SelectsDay(c, d), Clock(h, m, 0))
  }

  lemma FiresAtClock(c: Cron, h: int, m: int, t: Instant)
    requires 0 <= h < 24 && 0 <= m < 60 && c.minute.values == {m} && c.hour.values == {h}
    ensures Fires(c, t) <==> OccursIn(CronPattern(c, h, m), t)
  {
    ClockParts(t.day, h, m, 0);
    if OccursIn(CronPattern(c, h, m), t) { assert t == Time(t.day, Clock(h, m, 0)); }
  }

  lemma LeastIsNextFire(c: Cron, h: int, m: int, after: Instant, t: Instant)
    requires 0 <= h < 24 && 0 <= m < 60 && c.minute.values == {m} && c.hour.values == {h}
    requires LeastAfter(CronPattern(c, h, m), after, t)
    ensures NextFire(c, after, t)
  {
    FiresAtClock(c, h, m, t);
    forall u: Instant | Fires(c, u) && Before(after, u) ensures !Before(u, t) {
      FiresAtClock(c, h, m, u);
    }
  }

  // The next fire of a shifted expression exists and is at most Reach days after the given day.
  method NextCronFire(expr: string, a: Day, after: Instant) returns (t: Instant)
    requires ShiftCron(expr, a).Some?
    ensures ParseCron(ShiftCron(expr, a).value).Some?
    ensures NextFire(ParseCron(ShiftCron(expr, a).value).value, after, t)
    ensures |Fields(expr)| == 5 && SeriesOf(Fields(expr)).Some?
    ensures Number(t.day) <= Number(after.day) + Reach(SeriesOf(Fields(expr)).value)
  {
    ghost var ghostFields, ghostSeries, ghostCron := ShiftedCronSelects(expr, a);
    var c := ParseCron(ShiftCron(expr, a).value).value;
    var f := Fields(expr);
    var series := SeriesOf(f).value;
    var m, h := Atoi(f[0]).value, Atoi(f[1]).value;
    var p := CronPattern(c, h, m);
    ghost var d := SeriesReach(series, a, FirstDay(p, after));
    assert p.selects(d);
    var found := SearchAfter(p, after, Reach(series));
    t := found.value;
    LeastIsNextFire(c, h, m, after, t);
  }

  lemma EndOfMay()
    ensures Number(Date(2023, 5, 31)) == Number(Date(2023, 4, 1)) + 60
  {
    NumberInNextMonth(Date(2023, 4, 1), 31);
  }

  lemma NotInApril(first: Day, d: Day)
    requires first == Date(2023, 4, 1) && d.day == 31 && (first == d || EarlierDate(first, d))
    ensures d == Date(2023, 5, 31) || EarlierDate(Date(2023, 5, 31), d)
  {
  }

  // The bounds are met: these two searches take every day they are given.
  lemma MonthlyBoundIsTight(first: Day, d: Day)
    requires first == Date(2023, 4, 1) && d.day == 31 && Number(first) <= Number(d)
    ensures Number(d) >= Number(first) + 60
  {
    NumberOrdersDays(first, d);
    NotInApril(first, d);
    NumberOrdersDays(Date(2023, 5, 31), d);
    EndOfMay();
  }

  lemma YearlyBoundIsTight(first: Day, d: Day)
    requires first == Date(1896, 3, 1) && d.day == 29 && d.month == 2 && Number(first) <= Number(d)
    ensures Number(d) >= Number(first) + 2920
  {
    NumberOrdersDays(first, d);
    NumberOrdersDays(Date(1904, 2, 29), d);
    MonthTable(1896, 3);
    MonthTable(1904, 2);
    assert Number(Date(1904, 2, 29)) == Number(first) + 2920;
    assert forall y :: 1896 < y < 1904 ==> !Leap(y);
  }

  // ---------- rules: the recurrence set repeats, so one whole cycle decides ----------

  // rrule's After: the least occurrence strictly after `after`.
  ghost predicate NextOccurs(r: Rule, start: Instant, after: Instant, t: Instant)
    requires Plain(r)
  {
    && Occurs(r, start, t) && Before(after, t)
    && forall u: Instant :: Occurs(r, start, u) && Before(after, u) ==> !Before(u, t)
  }

  ghost predicate NeverOccurs(r: Rule, start: Instant, after: Instant)
    requires Plain(r)
  {
    forall u: Instant :: Before(after, u) ==> !Occurs(r, start, u)
  }

  function RulePattern(r: Rule, start: Instant): Pattern
    requires Plain(r)
  {
    Pattern((d: Day) => Selects(r, start.day, d), start.nanos)
  }

  lemma Multiples(x: int, l: int) returns (k: int)
    requires l >= 1
    ensures 0 <= x - k * l < l
  {
    k := x / l;
  }

  lemma CyclesNumber(d: Day, k: int, step: int)
    ensures Number(Cycles(d, k * step)) == Number(d) + k * (CYCLE * step)
  {
    CyclesKeepWeekday(d, k * step);
    assert CYCLE * (k * step) == k * (CYCLE * step);
  }

  lemma CyclesBack(d: Day, k: int)
    ensures Cycles(Cycles(d, -k), k) == d
  {
  }

  // The same day of the cycle k steps of cycles earlier is selected too, if DTSTART allows it.
  lemma SelectedEarlier(r: Rule, start: Day, d: Day, k: nat)
    requires Plain(r) && Selects(r, start, d) && Number(start) <= Number(Cycles(d, -(k * Step(r))))
    ensures Selects(r, start, Cycles(d, -(k * Step(r))))
  {
    CycleRepeats(r, start, Cycles(d, -(k * Step(r))), k);
    CyclesBack(d, k * Step(r));
  }

  function Span(r: Rule): (n: int)
    ensures n >= CYCLE
  {
    CYCLE * Step(r)
  }

  lemma ReachBack(r: Rule, start: Day, d: Day, k: nat) returns (e: Day)
    requires Plain(r) && Selects(r, start, d) && Number(start) <= Number(d) - k * Span(r)
    ensures Selects(r, start, e) && Number(e) == Number(d) - k * Span(r)
  {
    e := Cycles(d, -(k * Step(r)));
    Negated(k, Step(r));
    var back: int := -(k as int);
    CyclesNumber(d, back, Step(r));
    Negated(k, Span(r));
    SelectedEarlier(r, start, d, k);
  }

  lemma ReachForward(r: Rule, start: Day, d: Day, k: nat) returns (e: Day)
    requires Plain(r) && Selects(r, start, d)
    ensures Selects(r, start, e) && Number(e) == Number(d) + k * Span(r)
  {
    e := Cycles(d, k * Step(r));
    CyclesNumber(d, k, Step(r));
    CycleRepeats(r, start, d, k);
  }

  // From any selected day there is one in every span of CYCLE * Step(r) days from DTSTART on.
  lemma RuleReach(r: Rule, start: Day, d: Day, first: Day) returns (e: Day)
    requires Plain(r) && Selects(r, start, d) && Number(start) <= Number(first)
    ensures Selects(r, start, e) && Number(first) <= Number(e) < Number(first) + Span(r)
  {
    var k: int := Multiples(Number(d) - Number(first), Span(r));
    if k >= 0 {
      e := ReachBack(r, start, d, k);
    } else {
      Negated(k, Span(r));
      e := ReachForward(r, start, d, -k);
    }
  }

  lemma Negated(k: int, step: int)
    ensures -k * step == -(k * step)
  {
  }

  function Max(a: int, b: int): int { if a < b then b else a }

  method NextRuleOccurrence(r: Rule, start: Instant, after: Instant) returns (t: Option<Instant>)
    requires Plain(r)
    ensures t.Some? ==> NextOccurs(r, start, after, t.value)
    ensures t.None? <==> NeverOccurs(r, start, after)
  {
    var p := RulePattern(r, start);
    var first := FirstDay(p, after);
    var wait := Max(0, Number(start.day) - Number(first));
    t := SearchAfter(p, after, wait + Span(r));
    if t.Some? {
      assert forall u: Instant :: Occurs(r, start, u) <==> OccursIn(p, u);
    } else {
      NoneInACycle(r, start, after, wait);
    }
  }

  lemma SelectedInReach(r: Rule, start: Instant, d: Day, from: Day, first: Day, wait: nat)
    requires Plain(r) && Selects(r, start.day, d)
    requires Number(start.day) <= Number(from) == Number(first) + wait
    ensures !NoneFrom(RulePattern(r, start), first, wait + Span(r))
  {
    var e := RuleReach(r, start.day, d, from);
    assert RulePattern(r, start).selects(e);
  }

  lemma NoneInACycle(r: Rule, start: Instant, after: Instant, wait: nat)
    requires Plain(r)
    requires var first := FirstDay(RulePattern(r, start), after);
             && wait == Max(0, Number(start.day) - Number(first))
             && NoneFrom(RulePattern(r, start), first, wait + Span(r))
    ensures NeverOccurs(r, start, after)
  {
    var first := FirstDay(RulePattern(r, start), after);
    var from := DaysLater(first, wait);
    forall u: Instant | Before(after, u) ensures !Occurs(r, start, u) {
      if Occurs(r, start, u) { SelectedInReach(r, start, u.day, from, first, wait); }
    }
  }

  // ---------- the shift ----------

  predicate FieldSet(field: Option<string>) { field.Some? && TrimSpace(field.value) != "" }

  // completionAnchor: the completion's day at the clock of the completed child.
  function CompletionAnchor(completedAt: Instant, clock: Instant): Instant {
    Time(completedAt.day, Clock(Hour(clock), Minute(clock), Second(clock)))
  }

  // cronexpr reads minutes and hours of one or two digits.
  predicate ClockReads(f: seq<string>) {
    |f| == 5 && Digits(f[0]) && |f[0]| <= 2 && Digits(f[1]) && |f[1]| <= 2
  }

  predicate CronexprReads(expr: string) { ClockReads(Fields(expr)) }

  datatype Shifting = Shifting(anchor: Instant, next: Instant, cron: Option<string>, rule: Option<string>)

  // shiftRecurrenceFromCompletion on the parent's cron expression and rule
  method ShiftFromCompletion(cron: Option<string>, rule: Option<string>, clock: Instant, completedAt: Instant)
    returns (s: Option<Shifting>)
    ensures Shifts(cron, rule, clock, completedAt, s)
  {
    if FieldSet(cron) == FieldSet(rule) {
      return None;
    }
    var anchor := CompletionAnchor(completedAt, clock);
    if FieldSet(cron) {
      var text := ShiftCron(cron.value, anchor.day);
      if text.None? || !CronexprReads(text.value) {
        return None;
      }
      var next := NextCronFire(cron.value, anchor.day, completedAt);
      return Some(Shifting(anchor, next, text, None));
    }
    var text := ShiftRRule(rule.value, anchor.day);
    if text.None? {
      return None;
    }
    ghost var ps, r0, r1 := ShiftedReadsBack(rule.value, anchor.day);
    var r := ParseRule(text.value).value;
    if !InBounds(r) {
      return None;
    }
    var next := NextRuleOccurrence(r, anchor, completedAt);
    if next.None? {
      return None;
    }
    s := Some(Shifting(anchor, next.value, None, text));
  }

  // What a completion answers: exactly one field is set, the anchor is the completion's day at the
  // clock, and text and next start are those of the field's shift.
  ghost predicate Shifts(
    cron: Option<string>, rule: Option<string>, clock: Instant, completedAt: Instant, s: Option<Shifting>)
  {
    && (s.Some? ==> s.value.anchor == CompletionAnchor(completedAt, clock))
    && (FieldSet(cron) == FieldSet(rule) ==> s.None?)
    && (FieldSet(cron) && !FieldSet(rule) ==> CronShifting(cron.value, completedAt, s))
    && (FieldSet(rule) && !FieldSet(cron) ==> RuleShifting(rule.value, clock, completedAt, s))
  }

  ghost predicate CronShifting(cron: string, completedAt: Instant, s: Option<Shifting>) {
    var text := ShiftCron(cron, completedAt.day);
    && (s.Some? <==> text.Some? && CronexprReads(text.value))
    && (s.Some? ==>
          && s.value.cron == text && s.value.rule.None? && ParseCron(text.value).Some?
          && NextFire(ParseCron(text.value).value, completedAt, s.value.next))
  }

  ghost predicate RuleShifting(rule: string, clock: Instant, completedAt: Instant, s: Option<Shifting>) {
    var text := ShiftRRule(rule, completedAt.day);
    match text
    case None => s.None?
    case Some(t) =>
      && ParseRule(t).Some? && Plain(ParseRule(t).value)
      && var r, anchor := ParseRule(t).value, CompletionAnchor(completedAt, clock);
      && (s.Some? <==> InBounds(r) && !NeverOccurs(r, anchor, completedAt))
      && (s.Some? ==> s.value.rule == text && s.value.cron.None? && NextOccurs(r, anchor, completedAt, s.value.next))
  }

  // The instant is on day d at the clock's time of day, without its fraction of a second.
  predicate OnDayAtClock(t: Instant, d: Day, clock: Instant) {
    && t.day == d && Hour(t) == Hour(clock) && Minute(t) == Minute(clock) && Second(t) == Second(clock)
    && t.nanos == clock.nanos - clock.nanos % 1_000_000_000
  }

  lemma WholeSeconds(t: Instant)
    ensures Clock(Hour(t), Minute(t), Second(t)) == t.nanos - t.nanos % 1_000_000_000
  {
    var n := Seconds(t);
    assert n == (n / 3600 * 60 + n / 60 % 60) * 60 + n % 60;
  }

  // Main result: the anchor of an accepted shift is the day of the completion at the clock of the
  // completed child; the next start comes after the completion, for a rule at that same time of
  // day and for a cron expression at its own.
  lemma AnchorIsOnDayAtClock(
      cron: Option<string>, rule: Option<string>, clock: Instant, completedAt: Instant, s: Shifting)
    requires Shifts(cron, rule, clock, completedAt, Some(s))
    ensures OnDayAtClock(s.anchor, completedAt.day, clock) && Before(completedAt, s.next)
    ensures s.rule.Some? ==> s.next.nanos == clock.nanos - clock.nanos % 1_000_000_000
    ensures s.cron.Some? ==>
              var f := Fields(cron.value);
              && |f| == 5 && Atoi(f[0]) == Some(Minute(s.next)) && Atoi(f[1]) == Some(Hour(s.next))
              && s.next.nanos == (Hour(s.next) * 60 + Minute(s.next)) * 60_000_000_000
  {
    WholeSeconds(clock);
    ClockParts(completedAt.day, Hour(clock), Minute(clock), Second(clock));
    if s.cron.Some? {
      var f, series, c := ShiftedCronSelects(cron.value, completedAt.day);
      assert Minute(s.next) in c.minute.values && Hour(s.next) in c.hour.values;
    }
  }

  // With unique keys an accepted rule is never turned down afterwards: its bounds are met and a
  // next occurrence exists.
  lemma UniqueKeysAlwaysShift(rule: string, clock: Instant, completedAt: Instant)
    requires ShiftRRule(rule, completedAt.day).Some?
    requires ReadParts(RuleParts(rule)).Some? && UniqueKeys(ReadParts(RuleParts(rule)).value)
    ensures ParseRule(ShiftRRule(rule, completedAt.day).value).Some?
    ensures var r, anchor :=
              ParseRule(ShiftRRule(rule, completedAt.day).value).value, CompletionAnchor(completedAt, clock);
            Plain(r) && InBounds(r) && !NeverOccurs(r, anchor, completedAt)
  {
    var a := completedAt.day;
    var ps, r0, r := AnchorIsAnOccurrence(rule, a);
    var anchor := CompletionAnchor(completedAt, clock);
    var e := RuleReach(r, a, a, NextDay(a));
    var u := Time(e, anchor.nanos);
    BeforeByDay(completedAt, u);
    assert Occurs(r, anchor, u);
    UniqueInBounds(rule, a, r);
  }

  lemma UniqueInBounds(rule: string, a: Day, r1: Rule)
    requires ShiftRRule(rule, a).Some? && ParseRule(ShiftRRule(rule, a).value) == Some(r1)
    requires ReadParts(RuleParts(rule)).Some? && UniqueKeys(ReadParts(RuleParts(rule)).value)
    ensures InBounds(r1)
  {
    var ps, r, r2 := ShiftedText(rule, a);
    RuleFields.CleanReadParts(ps);
    UniqueCounts(ps);
    CountedParts(ps, r, KeyByMonth);
    CountedParts(ps, r, KeyByMonthDay);
    BoundsOf(r, r1, a, Moves(ps, r, KeyByMonth), Moves(ps, r, KeyByMonthDay));
  }

  lemma BoundsOf(r: Rule, r1: Rule, a: Day, month: bool, monthDay: bool)
    requires Shiftable(r)
    requires ByMonth(r1) == (if month then [a.month] else ByMonth(r)) && (month <==> |ByMonth(r)| == 1)
    requires ByMonthDay(r1) == (if monthDay then [a.day] else ByMonthDay(r)) && (monthDay <==> |ByMonthDay(r)| == 1)
    ensures InBounds(r1)
  {
  }
}
