/** The main result on the compiler: the rule it compiles a cron expression to selects the days of
    that expression, from any start on. */
module CronPreservation {
  import opened Text
  import opened Gregorian
  import opened CronRule
  import opened RRule
  import opened CronCompile
  import opened CronMeaning

  // ---------- reading the compiled text back ----------

  predicate PlainText(s: string) {
    forall i :: 0 <= i < |s| ==> IsDigit(s[i]) || 'A' <= s[i] <= 'Z' || s[i] == ','
  }

  lemma PlainTextHas(s: string)
    requires PlainText(s)
    ensures ';' !in s && '=' !in s && NoSpace(s) && '\n' !in s
  {
  }

  lemma {:induction false} JoinedPlain(tokens: seq<string>)
    requires |tokens| >= 1 && forall i :: 0 <= i < |tokens| ==> tokens[i] != "" && PlainText(tokens[i])
    ensures PlainText(Join(tokens, ",")) && Join(tokens, ",") != ""
  {
    if |tokens| > 1 {
      JoinedPlain(tokens[1..]);
      assert PlainText(tokens[0]);
    }
  }

  lemma {:induction false} PrintedTokens(ns: seq<int>)
    requires Within(ns, 0, MAX_INT64)
    ensures ParseInts(Printed(ns)) == Some(ns)
    ensures forall i :: 0 <= i < |ns| ==> Printed(ns)[i] != "" && PlainText(Printed(ns)[i])
    ensures forall p :: p in Printed(ns) ==> ',' !in p
  {
    if ns != [] {
      AtoiItoa(ns[0]);
      PrintedTokens(ns[1..]);
      assert [ns[0]] + ns[1..] == ns;
    }
  }

  lemma CsvReads(ns: seq<int>)
    requires ns != [] && Within(ns, 0, MAX_INT64)
    ensures var csv := Join(Printed(ns), ",");
            csv != "" && PlainText(csv) && ParseInts(Split(csv, ',')) == Some(ns)
  {
    PrintedTokens(ns);
    JoinedPlain(Printed(ns));
    SplitJoin(Printed(ns), ',');
  }

  lemma TokenReads(n: int)
    requires 0 <= n < 7
    ensures var t := WEEKDAY_TOKENS[n];
            t != "" && PlainText(t) && ',' !in t && ParseWeekday(t) == Some(WeekdayNum(n, 0))
  {
    var t := WEEKDAY_TOKENS[n];
    assert |t| == 2 && t[..0] == "" && t[0..] == t;
  }

  function Weekdays(nums: seq<int>): set<int> {
    set i | 0 <= i < |nums| :: nums[i] % 7
  }

  predicate TokensOf(names: seq<string>, ws: seq<WeekdayNum>) {
    |names| == |ws| && forall i :: 0 <= i < |ws| ==>
      0 <= ws[i].weekday < 7 && ws[i].n == 0 && names[i] == WEEKDAY_TOKENS[ws[i].weekday]
  }

  predicate Listed(ws: seq<WeekdayNum>, w: int) {
    WeekdayNum(w, 0) in ws
  }

  // The listed weekdays are those of nums, less the ones already seen.
  ghost predicate ListsUnseen(nums: seq<int>, seen: set<string>, ws: seq<WeekdayNum>) {
    forall w :: 0 <= w < 7 ==> (Listed(ws, w) <==> w in Weekdays(nums) && WEEKDAY_TOKENS[w] !in seen)
  }

  lemma {:induction false} NamesRead(nums: seq<int>, seen: set<string>) returns (ws: seq<WeekdayNum>)
    requires Within(nums, 0, 7)
    ensures TokensOf(ByDayNames(nums, seen), ws)
    ensures ListsUnseen(nums, seen, ws)
  {
    if nums == [] {
      ws := [];
    } else {
      var n := nums[0] % 7;
      var name := WEEKDAY_TOKENS[n];
      WeekdaysCons(nums);
      if name in seen {
        ws := NamesRead(nums[1..], seen);
        ListSkip(nums, seen, ws);
      } else {
        var rest := NamesRead(nums[1..], seen + {name});
        ws := [WeekdayNum(n, 0)] + rest;
        ListCons(nums, seen, rest);
        TokenCons(n, ByDayNames(nums[1..], seen + {name}), rest);
      }
    }
  }

  lemma TokenCons(n: int, names: seq<string>, ws: seq<WeekdayNum>)
    requires 0 <= n < 7 && TokensOf(names, ws)
    ensures TokensOf([WEEKDAY_TOKENS[n]] + names, [WeekdayNum(n, 0)] + ws)
  {
  }

  lemma ListSkip(nums: seq<int>, seen: set<string>, ws: seq<WeekdayNum>)
    requires nums != [] && WEEKDAY_TOKENS[nums[0] % 7] in seen
    requires Weekdays(nums) == {nums[0] % 7} + Weekdays(nums[1..])
    requires ListsUnseen(nums[1..], seen, ws)
    ensures ListsUnseen(nums, seen, ws)
  {
  }

  lemma ListCons(nums: seq<int>, seen: set<string>, rest: seq<WeekdayNum>)
    requires nums != [] && WEEKDAY_TOKENS[nums[0] % 7] !in seen
    requires Weekdays(nums) == {nums[0] % 7} + Weekdays(nums[1..])
    requires ListsUnseen(nums[1..], seen + {WEEKDAY_TOKENS[nums[0] % 7]}, rest)
    ensures ListsUnseen(nums, seen, [WeekdayNum(nums[0] % 7, 0)] + rest)
  {
    TokensDiffer();
    var n := nums[0] % 7;
    forall w | 0 <= w < 7
      ensures Listed([WeekdayNum(n, 0)] + rest, w) <==> w in Weekdays(nums) && WEEKDAY_TOKENS[w] !in seen
    {
      assert Listed([WeekdayNum(n, 0)] + rest, w) <==> w == n || Listed(rest, w);
    }
  }

  lemma {:induction false} TokensParse(names: seq<string>, ws: seq<WeekdayNum>)
    requires TokensOf(names, ws)
    ensures ParseWeekdays(names) == Some(ws)
    ensures forall i :: 0 <= i < |names| ==> names[i] != "" && PlainText(names[i]) && ',' !in names[i]
  {
    if names != [] {
      TokenReads(ws[0].weekday);
      TokensParse(names[1..], ws[1..]);
      assert [ws[0]] + ws[1..] == ws;
    }
  }

  lemma WeekdaysCons(nums: seq<int>)
    requires nums != []
    ensures Weekdays(nums) == {nums[0] % 7} + Weekdays(nums[1..])
  {
    forall w | w in {nums[0] % 7} + Weekdays(nums[1..]) ensures w in Weekdays(nums) {
      if w != nums[0] % 7 {
        var i :| 0 <= i < |nums[1..]| && nums[1..][i] % 7 == w;
        assert nums[i + 1] % 7 == w;
      }
    }
    forall w | w in Weekdays(nums) ensures w in {nums[0] % 7} + Weekdays(nums[1..]) {
      var i :| 0 <= i < |nums| && nums[i] % 7 == w;
      if i > 0 { assert nums[1..][i - 1] % 7 == w; }
    }
  }

  lemma TokensDiffer()
    ensures forall v, w :: 0 <= v < 7 && 0 <= w < 7 && WEEKDAY_TOKENS[v] == WEEKDAY_TOKENS[w] ==> v == w
  {
    forall v | 0 <= v < 7 ensures WeekdayOf(WEEKDAY_TOKENS[v]) == Some(v) {}
  }

  // ---------- the four shapes of a compiled rule ----------

  function OfFreq(i: nat): Rule
    requires i < 4
  {
    BLANK.(freq := Some(FREQS[i]))
  }

  function FreqText(i: nat): string
    requires i < 4
  {
    KEY_NAMES[0] + "=" + FREQ_NAMES[i]
  }

  function PartText(k: nat, value: string): string
    requires k < 4
  {
    KEY_NAMES[k] + "=" + value
  }

  predicate RulePart(s: string) {
    s != "" && 'A' <= s[0] <= 'Z' && !IsSpace(s[|s| - 1]) && '\n' !in s && ';' !in s
  }

  lemma FreqApplies(i: nat)
    requires i < 4
    ensures ApplyPart(BLANK, FreqText(i)) == Some(OfFreq(i))
  {
    assert forall j :: 0 <= j < i ==> FREQ_NAMES[j][0] != FREQ_NAMES[i][0];
    assert '=' !in FREQ_NAMES[i];
    IndexOfFirst(FREQ_NAMES, i);
    PartApplies(BLANK, 0, FREQ_NAMES[i]);
  }

  lemma FreqShape(i: nat)
    requires i < 4
    ensures RulePart(FreqText(i)) && FreqText(i)[0] == 'F'
  {
    var f := FREQ_NAMES[i];
    assert f != "" && PlainText(f);
    PartShape(0, f);
  }

  lemma PartShape(k: nat, value: string)
    requires k < 4 && PlainText(value) && value != ""
    ensures RulePart(PartText(k, value)) && PartText(k, value)[0] == KEY_NAMES[k][0]
  {
    PlainTextHas(value);
    assert PlainText(KEY_NAMES[k]) && KEY_NAMES[k] != "";
    PlainTextHas(KEY_NAMES[k]);
    var s := PartText(k, value);
    assert s[|s| - 1] == value[|value| - 1];
  }

  lemma FreqReads(i: nat)
    requires i < 4
    ensures ApplyPart(BLANK, FreqText(i)) == Some(OfFreq(i)) && RulePart(FreqText(i)) && FreqText(i)[0] == 'F'
  {
    FreqApplies(i);
    FreqShape(i);
  }

  lemma PartReads(k: nat, r: Rule, value: string)
    requires 1 <= k < 4 && PlainText(value) && value != ""
    ensures ApplyPart(r, PartText(k, value)) == SetProperty(r, KEYS[k], value) && RulePart(PartText(k, value))
  {
    PlainTextHas(value);
    PartApplies(r, k, value);
    PartShape(k, value);
  }

  lemma OneReads(i: nat)
    requires i < 4
    ensures ParseRule(FreqText(i)) == Some(OfFreq(i))
  {
    FreqReads(i);
    ReadsOne(FreqText(i), OfFreq(i));
  }

  lemma TwoReads(i: nat, k: nat, value: string, r: Rule)
    requires i < 4 && 1 <= k < 4 && PlainText(value) && value != ""
    requires SetProperty(OfFreq(i), KEYS[k], value) == Some(r) && r.freq.Some?
    ensures ParseRule(FreqText(i) + ";" + PartText(k, value)) == Some(r)
  {
    FreqReads(i);
    PartReads(k, OfFreq(i), value);
    ReadsTwo(FreqText(i), OfFreq(i), PartText(k, value), r);
  }

  lemma ThreeReads(i: nat, k: nat, value: string, r: Rule, l: nat, value2: string, r2: Rule)
    requires i < 4 && 1 <= k < 4 && PlainText(value) && value != ""
    requires 1 <= l < 4 && PlainText(value2) && value2 != ""
    requires SetProperty(OfFreq(i), KEYS[k], value) == Some(r)
    requires SetProperty(r, KEYS[l], value2) == Some(r2) && r2.freq.Some?
    ensures ParseRule(FreqText(i) + ";" + (PartText(k, value) + ";" + PartText(l, value2))) == Some(r2)
  {
    FreqReads(i);
    PartReads(k, OfFreq(i), value);
    PartReads(l, r, value2);
    ReadsThree(FreqText(i), OfFreq(i), PartText(k, value), r, PartText(l, value2), r2);
  }

  lemma WeeklyText(csv: string)
    ensures "FREQ=WEEKLY;BYDAY=" + csv == FreqText(1) + ";" + PartText(1, csv)
  {
  }

  lemma MonthlyText(csv: string)
    ensures "FREQ=MONTHLY;BYMONTHDAY=" + csv == FreqText(2) + ";" + PartText(3, csv)
  {
  }

  lemma YearlyText(monthCsv: string, dayCsv: string)
    ensures "FREQ=YEARLY;BYMONTH=" + monthCsv + ";BYMONTHDAY=" + dayCsv ==
            FreqText(3) + ";" + (PartText(2, monthCsv) + ";" + PartText(3, dayCsv))
  {
  }

  lemma DailyReads(s: string)
    requires s == "FREQ=DAILY"
    ensures ParseRule(s) == Some(OfFreq(0))
  {
    OneReads(0);
    assert s == FreqText(0);
  }

  function WeeklyRule(ws: seq<WeekdayNum>): Rule { OfFreq(1).(byDay := ws) }

  function MonthlyRule(days: seq<int>): Rule { OfFreq(2).(lists := map[KeyByMonthDay := days]) }

  function YearlyRule(months: seq<int>, days: seq<int>): Rule {
    OfFreq(3).(lists := map[KeyByMonth := months, KeyByMonthDay := days])
  }

  // ---------- what each shape selects ----------

  lemma ModOne(n: int)
    ensures n % 1 == 0
  {
  }

  lemma DailySelects(start: Day, d: Day)
    requires Number(start) <= Number(d)
    ensures Plain(OfFreq(0)) && Selects(OfFreq(0), start, d)
  {
    ModOne(PeriodsBetween(OfFreq(0), start, d));
  }

  lemma WeeklySelects(ws: seq<WeekdayNum>, start: Day, d: Day)
    requires ws != [] && (forall i :: 0 <= i < |ws| ==> ws[i].n == 0) && Number(start) <= Number(d)
    ensures Plain(WeeklyRule(ws))
    ensures Selects(WeeklyRule(ws), start, d) <==> WeekdayNum(Weekday(d), 0) in ws
  {
    ModOne(PeriodsBetween(WeeklyRule(ws), start, d));
  }

  lemma MonthlySelects(days: seq<int>, start: Day, d: Day)
    requires days != [] && Within(days, 1, 31) && Number(start) <= Number(d)
    ensures Plain(MonthlyRule(days))
    ensures Selects(MonthlyRule(days), start, d) <==> d.day in SetOf(days)
  {
    ModOne(PeriodsBetween(MonthlyRule(days), start, d));
    assert d.day - DaysIn(d.year, d.month) - 1 !in days;
  }

  lemma YearlySelects(months: seq<int>, days: seq<int>, start: Day, d: Day)
    requires months != [] && days != [] && Within(days, 1, 31) && Number(start) <= Number(d)
    ensures Plain(YearlyRule(months, days))
    ensures Selects(YearlyRule(months, days), start, d) <==> d.month in SetOf(months) && d.day in SetOf(days)
  {
    ModOne(PeriodsBetween(YearlyRule(months, days), start, d));
    assert d.day - DaysIn(d.year, d.month) - 1 !in days;
  }

  // ---------- preservation of days ----------

  // The rule read back from the compiled text selects on and after DTSTART the cron's days.
  ghost predicate SameDays(c: Cron, r: Rule) {
    Plain(r) && forall start: Day, d: Day :: Number(start) <= Number(d) ==> (Selects(r, start, d) <==> SelectsDay(c, d))
  }

  lemma StarDom(c: Cron, f: seq<string>)
    requires |f| == 5 && ParseFields(f) == Some(c)
    ensures f[2] == "*" ==> c.dom == Field(Range(1, 31), true)
    ensures f[3] == "*" ==> c.month == Field(Range(1, 12), true)
    ensures f[4] == "*" ==> c.dow == Field(Range(0, 6), true)
  {
    StarField(1, 31, NoNames);
    StarField(1, 12, MonthNames);
    StarField(0, 6, WeekdayNames);
  }

  lemma DailyCase(c: Cron, f: seq<string>)
    requires |f| == 5 && ParseFields(f) == Some(c) && f[2] == f[3] == f[4] == "*"
    ensures SameDays(c, OfFreq(0))
  {
    StarDom(c, f);
    forall start: Day, d: Day | Number(start) <= Number(d) ensures Selects(OfFreq(0), start, d) {
      DailySelects(start, d);
    }
  }

  lemma ExpandedWeekdays(f: string)
    requires NoSpace(f) && ExpandField(DowReader, f).Some? && ParseField(f, 0, 6, WeekdayNames).Some?
    ensures ParseField(f, 0, 6, WeekdayNames) == Some(Field(Weekdays(ExpandField(DowReader, f).value), false))
  {
    FieldAgrees(DowKind, f);
    WeekdaysInBounds(f);
    SmallWeekdays(ExpandField(DowReader, f).value);
  }

  lemma WeekdaysInBounds(f: string)
    requires ParseField(f, 0, 6, WeekdayNames).Some?
    ensures forall n :: n in ParseField(f, 0, 6, WeekdayNames).value.values ==> 0 <= n <= 6
  {
    ParsedInBounds(Split(f, ','), 0, 6, WeekdayNames);
  }

  // Numbers the cron parser accepts are below 7, so reducing modulo 7 changes none.
  lemma SmallWeekdays(nums: seq<int>)
    requires forall n :: n in SetOf(nums) ==> 0 <= n <= 6
    ensures Weekdays(nums) == SetOf(nums)
  {
    forall i | 0 <= i < |nums| ensures nums[i] % 7 == nums[i] {
      assert nums[i] in SetOf(nums);
    }
  }

  lemma WeekdayCsv(nums: seq<int>) returns (ws: seq<WeekdayNum>)
    requires nums != [] && Within(nums, 0, 7)
    ensures var csv := Join(ByDayNames(nums, {}), ",");
            csv != "" && PlainText(csv) && ParseWeekdays(Split(csv, ',')) == Some(ws)
    ensures ws != [] && forall i :: 0 <= i < |ws| ==> ws[i].n == 0
    ensures ListsUnseen(nums, {}, ws)
  {
    var names := ByDayNames(nums, {});
    ws := NamesRead(nums, {});
    assert nums[0] % 7 in Weekdays(nums) && Listed(ws, nums[0] % 7);
    TokensParse(names, ws);
    JoinedPlain(names);
    SplitJoin(names, ',');
  }

  lemma WeeklyReads(csv: string, ws: seq<WeekdayNum>)
    requires csv != "" && PlainText(csv) && ParseWeekdays(Split(csv, ',')) == Some(ws)
    ensures ParseRule(FreqText(1) + ";" + PartText(1, csv)) == Some(WeeklyRule(ws))
  {
    KeyTable();
    SetByDay(OfFreq(1), csv, ws);
    TwoReads(1, 1, csv, WeeklyRule(ws));
  }

  lemma KeyTable()
    ensures KEYS[1] == KeyByDay && KEYS[2] == KeyByMonth && KEYS[3] == KeyByMonthDay
  {
  }

  lemma SetByDay(r: Rule, csv: string, ws: seq<WeekdayNum>)
    requires ParseWeekdays(Split(csv, ',')) == Some(ws)
    ensures SetProperty(r, KeyByDay, csv) == Some(r.(byDay := ws))
  {
  }

  lemma MonthlyReads(days: seq<int>)
    requires days != [] && Within(days, 0, MAX_INT64)
    ensures ParseRule(FreqText(2) + ";" + PartText(3, Join(Printed(days), ","))) == Some(MonthlyRule(days))
  {
    CsvReads(days);
    TwoReads(2, 3, Join(Printed(days), ","), MonthlyRule(days));
  }

  lemma YearlyReads(months: seq<int>, days: seq<int>)
    requires months != [] && Within(months, 0, MAX_INT64) && days != [] && Within(days, 0, MAX_INT64)
    ensures ParseRule(FreqText(3) + ";" + (PartText(2, Join(Printed(months), ",")) + ";" +
                                           PartText(3, Join(Printed(days), ",")))) == Some(YearlyRule(months, days))
  {
    CsvReads(days);
    CsvReads(months);
    ThreeReads(3, 2, Join(Printed(months), ","), OfFreq(3).(lists := map[KeyByMonth := months]),
               3, Join(Printed(days), ","), YearlyRule(months, days));
  }

  lemma WeeklyCase(c: Cron, f: seq<string>, csv: string) returns (r: Rule)
    requires |f| == 5 && ParseFields(f) == Some(c) && f[2] == f[3] == "*" && NoSpace(f[4])
    requires DowToByDay(f[4]) == Some(csv)
    ensures ParseRule("FREQ=WEEKLY;BYDAY=" + csv) == Some(r) && SameDays(c, r) && r.freq == OfFreq(1).freq
  {
    StarDom(c, f);
    ExpandedWeekdays(f[4]);
    var nums := ExpandField(DowReader, f[4]).value;
    var ws := WeekdayCsv(nums);
    r := WeeklyRule(ws);
    WeeklyReads(csv, ws);
    WeeklyText(csv);
    WeeklySame(c, nums, ws);
  }

  lemma WeeklySame(c: Cron, nums: seq<int>, ws: seq<WeekdayNum>)
    requires c.dom == Field(Range(1, 31), true) && c.month == Field(Range(1, 12), true)
    requires c.dow == Field(Weekdays(nums), false)
    requires ws != [] && forall i :: 0 <= i < |ws| ==> ws[i].n == 0
    requires ListsUnseen(nums, {}, ws)
    ensures SameDays(c, WeeklyRule(ws))
  {
    forall start: Day, d: Day | Number(start) <= Number(d)
      ensures Selects(WeeklyRule(ws), start, d) <==> SelectsDay(c, d)
    {
      WeeklySelects(ws, start, d);
      assert Listed(ws, Weekday(d)) <==> Weekday(d) in Weekdays(nums);
    }
  }

  lemma MonthlySame(c: Cron, days: seq<int>)
    requires c.month == Field(Range(1, 12), true) && c.dow == Field(Range(0, 6), true)
    requires c.dom == Field(SetOf(days), false) && days != [] && Within(days, 1, 31)
    ensures SameDays(c, MonthlyRule(days))
  {
    forall start: Day, d: Day | Number(start) <= Number(d)
      ensures Selects(MonthlyRule(days), start, d) <==> SelectsDay(c, d)
    {
      MonthlySelects(days, start, d);
    }
  }

  lemma YearlySame(c: Cron, months: seq<int>, days: seq<int>)
    requires c.month == Field(SetOf(months), false) && c.dow == Field(Range(0, 6), true)
    requires c.dom == Field(SetOf(days), false) && days != [] && Within(days, 1, 31) && months != []
    ensures SameDays(c, YearlyRule(months, days))
  {
    forall start: Day, d: Day | Number(start) <= Number(d)
      ensures Selects(YearlyRule(months, days), start, d) <==> SelectsDay(c, d)
    {
      YearlySelects(months, days, start, d);
    }
  }

  lemma MonthlyCase(c: Cron, f: seq<string>, csv: string) returns (r: Rule)
    requires |f| == 5 && ParseFields(f) == Some(c) && f[3] == f[4] == "*" && NoSpace(f[2])
    requires FieldToCSV(f[2], 1, 31) == Some(csv)
    ensures ParseRule("FREQ=MONTHLY;BYMONTHDAY=" + csv) == Some(r) && SameDays(c, r) && r.freq == OfFreq(2).freq
  {
    StarDom(c, f);
    FieldAgrees(DomKind, f[2]);
    var days := ExpandField(IntReader(1, 31), f[2]).value;
    r := MonthlyRule(days);
    MonthlyReads(days);
    MonthlyText(csv);
    MonthlySame(c, days);
  }

  lemma YearlyCase(c: Cron, f: seq<string>, monthCsv: string, dayCsv: string) returns (r: Rule)
    requires |f| == 5 && ParseFields(f) == Some(c) && f[4] == "*" && NoSpace(f[2]) && NoSpace(f[3])
    requires FieldToCSV(f[2], 1, 31) == Some(dayCsv) && FieldToCSV(f[3], 1, 12) == Some(monthCsv)
    ensures ParseRule("FREQ=YEARLY;BYMONTH=" + monthCsv + ";BYMONTHDAY=" + dayCsv) == Some(r) && SameDays(c, r)
    ensures r.freq == OfFreq(3).freq
  {
    StarDom(c, f);
    FieldAgrees(DomKind, f[2]);
    FieldAgrees(MonthKind, f[3]);
    var days, months := ExpandField(IntReader(1, 31), f[2]).value, ExpandField(IntReader(1, 12), f[3]).value;
    r := YearlyRule(months, days);
    YearlyReads(months, days);
    YearlyText(monthCsv, dayCsv);
    YearlySame(c, months, days);
  }

  lemma ShapeFrequencies()
    ensures OfFreq(0).freq == Some(Daily) && OfFreq(1).freq == Some(Weekly)
    ensures OfFreq(2).freq == Some(Monthly) && OfFreq(3).freq == Some(Yearly)
  {
  }

  // The frequency that goes with the stars in the three day fields.
  predicate FrequencyFits(f: seq<string>, freq: Freq)
    requires |f| == 5
  {
    match freq
    case Daily => f[2] == "*" && f[3] == "*" && f[4] == "*"
    case Weekly => f[2] == "*" && f[3] == "*" && f[4] != "*"
    case Monthly => f[2] != "*" && f[3] == "*" && f[4] == "*"
    case Yearly => f[2] != "*" && f[3] != "*" && f[4] == "*"
    case _ => false
  }

  // Main result: whatever the compiler accepts, the text it returns reads back as a rule that
  // selects exactly the days of the cron expression, with the frequency its stars ask for.
  lemma CompilationPreservesDays(expr: string)
    requires CronToRRule(expr).Some?
    ensures ParseCron(expr).Some? && ParseRule(CronToRRule(expr).value).Some?
    ensures SameDays(ParseCron(expr).value, ParseRule(CronToRRule(expr).value).value)
    ensures |Fields(expr)| == 5 && ParseRule(CronToRRule(expr).value).value.freq.Some?
    ensures FrequencyFits(Fields(expr), ParseRule(CronToRRule(expr).value).value.freq.value)
  {
    var f := Fields(expr);
    var c := ParseCron(expr).value;
    var text := CronToRRule(expr).value;
    assert forall i :: 0 <= i < 5 ==> IsWord(f[i]);
    ShapeFrequencies();
    if f[2] == "*" && f[3] == "*" && f[4] == "*" {
      DailyReads(text);
      DailyCase(c, f);
    } else if f[2] == "*" && f[3] == "*" {
      var r := WeeklyCase(c, f, DowToByDay(f[4]).value);
    } else if f[3] == "*" {
      var r := MonthlyCase(c, f, FieldToCSV(f[2], 1, 31).value);
    } else {
      var r := YearlyCase(c, f, FieldToCSV(f[3], 1, 12).value, FieldToCSV(f[2], 1, 31).value);
    }
  }
}
