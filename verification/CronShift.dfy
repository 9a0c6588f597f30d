/** shiftCronFromCompletion: re-anchoring a cron expression on a completion day. */
module CronShift {
  import opened Text
  import opened Gregorian
  import opened CronRule
  import opened Completions

  const STAR := "*"

  // singleCronNumber
  predicate SingleNumber(field: string, lo: int, hi: int) {
    && ',' !in field && '-' !in field && '*' !in field && '/' !in field
    && Atoi(field).Some? && lo <= Atoi(field).value <= hi
  }

  // The four series that can be re-anchored, in the order they are tried.
  datatype Series = EveryDay | EveryWeek | EveryMonth | EveryYear

  function SeriesOf(f: seq<string>): Option<Series>
    requires |f| == 5
  {
    if !SingleNumber(f[0], 0, 59) || !SingleNumber(f[1], 0, 23) then None
    else if f[2] == STAR && f[3] == STAR && f[4] == STAR then Some(EveryDay)
    else if f[2] == STAR && f[3] == STAR && SingleNumber(f[4], 0, 7) then Some(EveryWeek)
    else if f[3] == STAR && f[4] == STAR && SingleNumber(f[2], 1, 31) then Some(EveryMonth)
    else if f[4] == STAR && SingleNumber(f[2], 1, 31) && SingleNumber(f[3], 1, 12) then Some(EveryYear)
    else None
  }

  function AnchoredFields(f: seq<string>, series: Series, a: Day): (g: seq<string>)
    requires |f| == 5
    ensures |g| == 5
  {
    match series
    case EveryDay => f
    case EveryWeek => [f[0], f[1], STAR, STAR, Itoa(Weekday(a))]
    case EveryMonth => [f[0], f[1], Itoa(a.day), STAR, STAR]
    case EveryYear => [f[0], f[1], Itoa(a.day), Itoa(a.month), STAR]
  }

  // shiftCronFromCompletion
  function ShiftCron(expr: string, a: Day): Option<string> {
    var f := Fields(TrimSpace(expr));
    if |f| != 5 then None
    else match SeriesOf(f)
      case None => None
      case Some(series) => Some(Join(AnchoredFields(f, series, a), " "))
  }

  // ---------- reading the shifted text back ----------

  lemma DigitsAreSingle(n: int, lo: int, hi: int)
    requires 0 <= lo <= n <= hi <= 59
    ensures SingleNumber(Itoa(n), lo, hi) && Atoi(Itoa(n)) == Some(n) && IsWord(Itoa(n)) && Itoa(n) != STAR
  {
    AtoiItoa(n);
    DigitsHave(Itoa(n));
  }

  lemma DigitsHave(s: string)
    requires s != "" && Digits(s)
    ensures ',' !in s && '-' !in s && '*' !in s && '/' !in s && NoSpace(s) && s != STAR
  {
    assert IsDigit(s[0]);
  }

  lemma FiveWords(a: string, b: string, c: string, d: string, e: string)
    requires IsWord(a) && IsWord(b) && IsWord(c) && IsWord(d) && IsWord(e)
    ensures AllWords([a, b, c, d, e])
  {
  }

  lemma AnchoredWords(f: seq<string>, series: Series, a: Day)
    requires |f| == 5 && AllWords(f)
    ensures AllWords(AnchoredFields(f, series, a))
  {
    var weekday, day, month := Itoa(Weekday(a)), Itoa(a.day), Itoa(a.month);
    DigitsAreSingle(Weekday(a), 0, 7);
    DigitsAreSingle(a.day, 1, 31);
    DigitsAreSingle(a.month, 1, 12);
    assert IsWord(f[0]) && IsWord(f[1]) && IsWord(STAR);
    FiveWords(f[0], f[1], STAR, STAR, weekday);
    FiveWords(f[0], f[1], day, STAR, STAR);
    FiveWords(f[0], f[1], day, month, STAR);
  }

  lemma TrimmedFields(s: string)
    ensures Fields(TrimSpace(s)) == Fields(s)
  {
    TrimLeftFields(s);
    TrimRightFields(TrimLeft(s));
  }

  lemma TrimLeftTwice(s: string)
    ensures TrimLeft(TrimLeft(s)) == TrimLeft(s)
  {
  }

  lemma TrimLeftFields(s: string)
    ensures Fields(TrimLeft(s)) == Fields(s)
  {
    TrimLeftTwice(s);
  }

  lemma {:induction false} SpaceAfter(s: string, c: char)
    requires IsSpace(c)
    ensures Fields(s + [c]) == Fields(s)
    decreases |s|
  {
    var t := TrimLeft(s);
    TrimLeftAppend(s, c);
    if t == "" {
      assert TrimLeft(s + [c]) == "";
    } else {
      var n := WordLength(t);
      WordLengthAppend(t, c);
      assert TrimLeft(s + [c]) == t + [c];
      assert (t + [c])[..n] == t[..n] && (t + [c])[n..] == t[n..] + [c];
      SpaceAfter(t[n..], c);
    }
  }

  lemma {:induction false} TrimLeftAppend(s: string, c: char)
    requires IsSpace(c)
    ensures TrimLeft(s + [c]) == if TrimLeft(s) == "" then "" else TrimLeft(s) + [c]
  {
    if s == "" {
      assert s + [c] == [c] && [c][1..] == "";
    } else if IsSpace(s[0]) {
      assert (s + [c])[1..] == s[1..] + [c];
      TrimLeftAppend(s[1..], c);
    }
  }

  lemma {:induction false} WordLengthAppend(s: string, c: char)
    requires IsSpace(c)
    ensures WordLength(s + [c]) == WordLength(s)
  {
    if s != "" && !IsSpace(s[0]) {
      assert (s + [c])[1..] == s[1..] + [c];
      WordLengthAppend(s[1..], c);
    }
  }

  lemma {:induction false} TrimRightFields(s: string)
    ensures Fields(TrimRight(s)) == Fields(s)
  {
    if s != "" && IsSpace(s[|s| - 1]) {
      var t := s[..|s| - 1];
      TrimRightFields(t);
      SpaceAfter(t, s[|s| - 1]);
      assert t + [s[|s| - 1]] == s;
    }
  }

  lemma WeekSeries(m: string, h: string, w: string)
    requires SingleNumber(m, 0, 59) && SingleNumber(h, 0, 23) && SingleNumber(w, 0, 7) && w != STAR
    ensures SeriesOf([m, h, STAR, STAR, w]) == Some(EveryWeek)
  {
  }

  lemma MonthSeries(m: string, h: string, d: string)
    requires SingleNumber(m, 0, 59) && SingleNumber(h, 0, 23) && SingleNumber(d, 1, 31) && d != STAR
    ensures SeriesOf([m, h, d, STAR, STAR]) == Some(EveryMonth)
  {
  }

  lemma YearSeries(m: string, h: string, d: string, n: string)
    requires SingleNumber(m, 0, 59) && SingleNumber(h, 0, 23)
    requires SingleNumber(d, 1, 31) && d != STAR && SingleNumber(n, 1, 12) && n != STAR
    ensures SeriesOf([m, h, d, n, STAR]) == Some(EveryYear)
  {
  }

  // Shifting accepts its own output, as the same series.
  lemma AnchoredSeries(f: seq<string>, series: Series, a: Day)
    requires |f| == 5 && SeriesOf(f) == Some(series)
    ensures SeriesOf(AnchoredFields(f, series, a)) == Some(series)
  {
    match series
    case EveryDay =>
    case EveryWeek =>
      DigitsAreSingle(Weekday(a), 0, 7);
      WeekSeries(f[0], f[1], Itoa(Weekday(a)));
    case EveryMonth =>
      DigitsAreSingle(a.day, 1, 31);
      MonthSeries(f[0], f[1], Itoa(a.day));
    case EveryYear =>
      DigitsAreSingle(a.day, 1, 31);
      DigitsAreSingle(a.month, 1, 12);
      YearSeries(f[0], f[1], Itoa(a.day), Itoa(a.month));
  }

  lemma AnchoredTwice(f: seq<string>, series: Series, a: Day, b: Day)
    requires |f| == 5
    ensures AnchoredFields(AnchoredFields(f, series, a), series, b) == AnchoredFields(f, series, b)
  {
  }

  lemma AcceptedFields(expr: string, a: Day) returns (f: seq<string>, series: Series)
    requires ShiftCron(expr, a).Some?
    ensures f == Fields(expr) && |f| == 5 && AllWords(f) && SeriesOf(f) == Some(series)
    ensures ShiftCron(expr, a) == Some(Join(AnchoredFields(f, series, a), " "))
    ensures Fields(ShiftCron(expr, a).value) == AnchoredFields(f, series, a)
  {
    TrimmedFields(expr);
    f := Fields(expr);
    series := SeriesOf(f).value;
    AnchoredWords(f, series, a);
    FieldsOfJoin(AnchoredFields(f, series, a));
  }

  // Shifting by a and then by b is shifting by b.
  lemma LastShiftWinsCron(expr: string, a: Day, b: Day)
    requires ShiftCron(expr, a).Some?
    ensures ShiftCron(expr, b).Some?
    ensures ShiftCron(ShiftCron(expr, a).value, b) == ShiftCron(expr, b)
  {
    var f, series := AcceptedFields(expr, a);
    TrimmedFields(expr);
    TrimmedFields(ShiftCron(expr, a).value);
    AnchoredSeries(f, series, a);
    AnchoredTwice(f, series, a, b);
  }

  lemma LastShiftDecidesCron()
    ensures LastShiftDecides(ShiftCron)
  {
    forall expr, a, b | ShiftCron(expr, a).Some?
      ensures ShiftCron(expr, b).Some? && ShiftCron(ShiftCron(expr, a).value, b) == ShiftCron(expr, b)
    {
      LastShiftWinsCron(expr, a, b);
    }
  }

  // ---------- the days of a shifted expression ----------

  // The days of the series through a.
  predicate InSeries(series: Series, a: Day, d: Day) {
    match series
    case EveryDay => true
    case EveryWeek => Weekday(d) == Weekday(a)
    case EveryMonth => d.day == a.day
    case EveryYear => d.day == a.day && d.month == a.month
  }

  predicate TimeOf(c: Cron, f: seq<string>)
    requires |f| == 5 && SeriesOf(f).Some?
  {
    c.minute.values == {Atoi(f[0]).value} && c.hour.values == {Atoi(f[1]).value}
  }

  lemma StarFields()
    ensures ParseField(STAR, 1, 31, NoNames) == Some(Field(Range(1, 31), true))
    ensures ParseField(STAR, 1, 12, MonthNames) == Some(Field(Range(1, 12), true))
    ensures ParseField(STAR, 0, 6, WeekdayNames) == Some(Field(Range(0, 6), true))
  {
    StarField(1, 31, NoNames);
    StarField(1, 12, MonthNames);
    StarField(0, 6, WeekdayNames);
  }

  lemma SingleField(s: string, lo: int, hi: int, names: Names)
    requires SingleNumber(s, lo, hi) && 0 <= lo
    ensures ParseField(s, lo, hi, names) == Some(Field({Atoi(s).value}, false))
  {
    NumberField(s, lo, hi, names);
  }

  lemma PrintedField(n: int, lo: int, hi: int, names: Names)
    requires 0 <= lo <= n <= hi <= 59
    ensures ParseField(Itoa(n), lo, hi, names) == Some(Field({n}, false))
  {
    DigitsAreSingle(n, lo, hi);
    SingleField(Itoa(n), lo, hi, names);
  }

  function DayFields(series: Series, a: Day): (Field, Field, Field) {
    var anyDom, anyMonth, anyDow := Field(Range(1, 31), true), Field(Range(1, 12), true), Field(Range(0, 6), true);
    match series
    case EveryDay => (anyDom, anyMonth, anyDow)
    case EveryWeek => (anyDom, anyMonth, Field({Weekday(a)}, false))
    case EveryMonth => (Field({a.day}, false), anyMonth, anyDow)
    case EveryYear => (Field({a.day}, false), Field({a.month}, false), anyDow)
  }

  lemma AnchoredReadsAs(f: seq<string>, series: Series, a: Day)
    requires |f| == 5 && SeriesOf(f) == Some(series)
    ensures var g, days := AnchoredFields(f, series, a), DayFields(series, a);
            && ParseField(g[2], 1, 31, NoNames) == Some(days.0)
            && ParseField(g[3], 1, 12, MonthNames) == Some(days.1)
            && ParseField(g[4], 0, 6, WeekdayNames) == Some(days.2)
  {
    StarFields();
    match series
    case EveryDay =>
    case EveryWeek => PrintedField(Weekday(a), 0, 6, WeekdayNames);
    case EveryMonth => PrintedField(a.day, 1, 31, NoNames);
    case EveryYear =>
      PrintedField(a.day, 1, 31, NoNames);
      PrintedField(a.month, 1, 12, MonthNames);
  }

  lemma AnchoredReads(f: seq<string>, series: Series, a: Day) returns (c: Cron)
    requires |f| == 5 && SeriesOf(f) == Some(series)
    ensures ParseFields(AnchoredFields(f, series, a)) == Some(c) && TimeOf(c, f)
    ensures forall d: Day :: SelectsDay(c, d) <==> InSeries(series, a, d)
  {
    SingleField(f[0], 0, 59, NoNames);
    SingleField(f[1], 0, 23, NoNames);
    AnchoredReadsAs(f, series, a);
    c := ParseFields(AnchoredFields(f, series, a)).value;
  }

  // A shifted expression is always a valid cron. It keeps the minute and hour of the original and
  // selects exactly the days of the series through the anchor's day, that day among them.
  lemma ShiftedCronSelects(expr: string, a: Day) returns (f: seq<string>, series: Series, c: Cron)
    requires ShiftCron(expr, a).Some?
    ensures f == Fields(expr) && |f| == 5 && SeriesOf(f) == Some(series)
    ensures ParseCron(ShiftCron(expr, a).value) == Some(c) && TimeOf(c, f)
    ensures forall d: Day :: SelectsDay(c, d) <==> InSeries(series, a, d)
    ensures SelectsDay(c, a)
  {
    f, series := AcceptedFields(expr, a);
    c := AnchoredReads(f, series, a);
    assert InSeries(series, a, a);
  }
}
