/** When the compiled rule also fires at the cron's instants, and two inputs at the edge of what
    the guards let through. */
module CronInstants {
  import opened Text
  import opened Gregorian
  import opened CronRule
  import opened RRule
  import opened CronCompile
  import opened CronPreservation

  // From DTSTART on the rule occurs exactly when the cron fires.
  ghost predicate SameInstants(c: Cron, r: Rule, start: Instant) {
    Plain(r) && forall t: Instant :: !Before(t, start) ==> (Occurs(r, start, t) <==> Fires(c, t))
  }

  // Minute and hour are single and DTSTART carries them.
  predicate SingleClock(c: Cron, start: Instant) {
    && c.minute.values == {Minute(start)} && c.hour.values == {Hour(start)}
    && start.nanos == Clock(Hour(start), Minute(start), 0)
  }

  lemma CronRepeats(c: Cron, d: Day, k: int)
    ensures SelectsDay(c, Cycles(d, k)) <==> SelectsDay(c, d)
  {
    CyclesKeepWeekday(d, k);
  }

  lemma LaterDay(c: Cron, d: Day, start: Day) returns (e: Day)
    requires SelectsDay(c, d)
    ensures SelectsDay(c, e) && Number(start) < Number(e)
  {
    var k := if Number(start) < Number(d) then 0 else Number(start) - Number(d) + 1;
    e := Cycles(d, k);
    CyclesKeepWeekday(d, k);
    CronRepeats(c, d, k);
  }

  lemma ClockFields(expr: string)
    requires ParseCron(expr).Some?
    ensures forall m :: m in ParseCron(expr).value.minute.values ==> 0 <= m < 60
    ensures forall h :: h in ParseCron(expr).value.hour.values ==> 0 <= h < 24
  {
    var f := Fields(expr);
    ParsedInBounds(Split(f[0], ','), 0, 59, NoNames);
    ParsedInBounds(Split(f[1], ','), 0, 23, NoNames);
  }

  lemma SingleClockSuffices(c: Cron, r: Rule, start: Instant)
    requires SameDays(c, r) && SingleClock(c, start)
    ensures SameInstants(c, r, start)
  {
    forall t: Instant | !Before(t, start) ensures Occurs(r, start, t) <==> Fires(c, t) {
      BeforeByDay(t, start);
      assert Number(start.day) <= Number(t.day);
      assert Selects(r, start.day, t.day) <==> SelectsDay(c, t.day);
    }
  }

  // On a selected day after DTSTART the two agree on one instant only if it is both or neither.
  lemma FiresOn(c: Cron, r: Rule, start: Instant, e: Day, h: int, m: int)
    requires SameDays(c, r) && SameInstants(c, r, start)
    requires SelectsDay(c, e) && Number(start.day) < Number(e)
    requires h in c.hour.values && m in c.minute.values && 0 <= h < 24 && 0 <= m < 60
    ensures start.nanos == Clock(h, m, 0)
  {
    var t := Time(e, Clock(h, m, 0));
    BeforeByDay(start, t);
    ClockParts(e, h, m, 0);
    assert Fires(c, t);
    assert Occurs(r, start, t);
  }

  lemma SameInstantsForceSingleClock(expr: string, r: Rule, start: Instant, d: Day)
    requires ParseCron(expr).Some? && SelectsDay(ParseCron(expr).value, d)
    requires SameDays(ParseCron(expr).value, r) && SameInstants(ParseCron(expr).value, r, start)
    ensures SingleClock(ParseCron(expr).value, start)
  {
    var c := ParseCron(expr).value;
    ClockFields(expr);
    var e := LaterDay(c, d, start.day);
    var t := Time(e, start.nanos);
    BeforeByDay(start, t);
    assert Selects(r, start.day, e);
    assert Occurs(r, start, t) && Fires(c, t);
    forall m | m in c.minute.values ensures m == Minute(start) {
      FiresOn(c, r, start, e, Hour(start), m);
      ClockParts(e, Hour(start), m, 0);
    }
    forall h | h in c.hour.values ensures h == Hour(start) {
      FiresOn(c, r, start, e, h, Minute(start));
      ClockParts(e, h, Minute(start), 0);
    }
    assert Minute(start) in c.minute.values && Hour(start) in c.hour.values;
  }

  // Main result: for a cron that selects some day, rule and cron fire at the same instants from
  // DTSTART on if and only if minute and hour are single and equal to DTSTART's clock.
  lemma InstantsPreservedExactly(expr: string, start: Instant, d: Day)
    requires CronToRRule(expr).Some? && SelectsDay(ParseCron(expr).value, d)
    ensures ParseRule(CronToRRule(expr).value).Some?
    ensures SameInstants(ParseCron(expr).value, ParseRule(CronToRRule(expr).value).value, start)
            <==> SingleClock(ParseCron(expr).value, start)
  {
    CompilationPreservesDays(expr);
    var c, r := ParseCron(expr).value, ParseRule(CronToRRule(expr).value).value;
    if SingleClock(c, start) { SingleClockSuffices(c, r, start); }
    if SameInstants(c, r, start) { SameInstantsForceSingleClock(expr, r, start, d); }
  }

  // A bare star in the minute field passes the guards, so such an expression compiles although
  // no DTSTART makes the two agree.
  lemma BareStarMinuteIsAccepted(f: seq<string>, start: Instant)
    requires |f| == 5 && AllWords(f) && f[0] == f[2] == f[3] == f[4] == "*"
    requires PlainNumber(f[1]) && 0 <= Atoi(f[1]).value <= 23
    ensures CronToRRule(Join(f, " ")) == Some("FREQ=DAILY")
    ensures !SingleClock(ParseCron(Join(f, " ")).value, start)
  {
    FieldsOfJoin(f);
    StarField(0, 59, NoNames);
    StarField(1, 31, NoNames);
    StarField(1, 12, MonthNames);
    StarField(0, 6, WeekdayNames);
    NumberField(f[1], 0, 23, NoNames);
    assert 0 in Range(0, 59) && 1 in Range(0, 59);
    assert '*' == f[0][0] && !('*' == '-') && |f[0]| == 1;
    PlainHour(f[1]);
    var minutes := ParseCron(Join(f, " ")).value.minute.values;
    assert minutes == Range(0, 59);
    assert 0 in minutes && 1 in minutes;
  }

  lemma PlainHour(s: string)
    requires PlainNumber(s)
    ensures !RefusedTimeField(s)
  {
    AtoiHasDigits(s);
    assert s[0] in s;
  }

  // The weekday loop alone would read a range from Sunday to 7 as Sunday only; the cron parser's
  // bound of 6 is what keeps such a field out.
  lemma SevenNeedsTheGuard(a: string, b: string)
    requires NoSpace(a) && '-' !in a && '/' !in a && a != "*" && a != "?" && |b| == 1 && b[0] == '7'
    requires DowTokenToNumber(a) == Some(0)
    ensures ExpandPiece(DowReader, a + ['-'] + b) == Some([0])
    ensures ParsePiece(a + ['-'] + b, 0, 6, WeekdayNames).None?
  {
    SplitRange(a, b);
    SevenExpands(a, b);
    SevenIsRefused(a, b);
  }

  lemma SplitRange(a: string, b: string)
    requires '-' !in a && '-' !in b
    ensures Split(a + ['-'] + b, '-') == [a, b]
  {
    SplitFirst(a, b, '-');
    SplitWhole(b, '-');
  }

  lemma SevenExpands(a: string, b: string)
    requires NoSpace(a) && |b| == 1 && b[0] == '7' && Split(a + ['-'] + b, '-') == [a, b]
    requires DowTokenToNumber(a) == Some(0)
    ensures ExpandPiece(DowReader, a + ['-'] + b) == Some([0])
  {
    SevenLowers(b);
    SevenIsSunday(b);
    RangeIsTrimmed(a, b);
    assert (a + ['-'] + b)[|a|] == '-';
    RangeExpands(DowReader, a + ['-'] + b, 0, 0);
    assert UpTo(0, 0) == [0];
  }

  lemma SevenIsRefused(a: string, b: string)
    requires '/' !in a && a != "*" && a != "?" && |b| == 1 && b[0] == '7' && Split(a + ['-'] + b, '-') == [a, b]
    ensures ParsePiece(a + ['-'] + b, 0, 6, WeekdayNames).None?
  {
    var s := a + ['-'] + b;
    SplitWhole(s, '/');
    SevenReads(b);
    if ParsePiece(s, 0, 6, WeekdayNames).Some? { RangePiece(s, 0, 6, WeekdayNames); }
  }

  lemma RangeExpands(reader: Reader, piece: string, x: int, y: int)
    requires TrimSpace(piece) == piece && '-' in piece && |Split(piece, '-')| == 2
    requires Read(reader, Split(piece, '-')[0]) == Some(x) && Read(reader, Split(piece, '-')[1]) == Some(y) && x <= y
    ensures ExpandPiece(reader, piece) == Some(UpTo(x, y))
  {
  }

  lemma RangeIsTrimmed(a: string, b: string)
    requires NoSpace(a) && NoSpace(b)
    ensures TrimSpace(a + ['-'] + b) == a + ['-'] + b
  {
    var s := a + ['-'] + b;
    assert s[0] == (if a == "" then '-' else a[0]);
    assert s[|s| - 1] == (if b == "" then '-' else b[|b| - 1]);
    TrimSpaceFixes(s);
  }

  lemma SevenReads(b: string)
    requires |b| == 1 && b[0] == '7'
    ensures ParseIntOrName(b, WeekdayNames) == Some(7)
  {
    assert b[..0] == "" && IsDigit(b[0]);
    assert DigitsValue(b[..0]) == 0 && DigitsValue(b) == 7;
    NotAName(b, WeekdayNames);
  }

  lemma SevenLowers(b: string)
    requires |b| == 1 && b[0] == '7'
    ensures NoSpace(b) && ToLower(TrimSpace(b)) == ['7']
  {
    assert !IsSpace(b[0]);
    TrimSpaceFixes(b);
    LowerSeven(b);
  }

  lemma LowerSeven(b: string)
    requires |b| == 1 && b[0] == '7'
    ensures ToLower(b) == ['7']
  {
  }

  lemma SevenIsSunday(b: string)
    requires ToLower(TrimSpace(b)) == ['7']
    ensures DowTokenToNumber(b) == Some(0)
  {
  }
}
