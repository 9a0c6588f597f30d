/** Recurrence rules: the text form as github.com/teambition/rrule-go reads it, and the days a
    rule selects by section 3.3.10 of RFC 5545. */
module RRule {
  import opened Text
  import opened Gregorian

  datatype Freq = Daily | Weekly | Monthly | Yearly | Hourly | Minutely | Secondly

  const FREQ_NAMES: seq<string> := ["DAILY", "WEEKLY", "MONTHLY", "YEARLY", "HOURLY", "MINUTELY", "SECONDLY"]
  const FREQS: seq<Freq> := [Daily, Weekly, Monthly, Yearly, Hourly, Minutely, Secondly]

  datatype Key =
    | KeyFreq | KeyByDay | KeyByMonth | KeyByMonthDay | KeyInterval | KeyCount | KeyUntil | KeyWkst
    | KeyBySetPos | KeyByYearDay | KeyByWeekNo | KeyByHour | KeyByMinute | KeyBySecond | KeyByEaster

  const KEY_NAMES: seq<string> := [
    "FREQ", "BYDAY", "BYMONTH", "BYMONTHDAY", "INTERVAL", "COUNT", "UNTIL", "WKST",
    "BYSETPOS", "BYYEARDAY", "BYWEEKNO", "BYHOUR", "BYMINUTE", "BYSECOND", "BYEASTER"
  ]
  const KEYS: seq<Key> := [
    KeyFreq, KeyByDay, KeyByMonth, KeyByMonthDay, KeyInterval, KeyCount, KeyUntil, KeyWkst,
    KeyBySetPos, KeyByYearDay, KeyByWeekNo, KeyByHour, KeyByMinute, KeyBySecond, KeyByEaster
  ]

  // n is the ordinal in front of a weekday (`2MO`), 0 when there is none.
  datatype WeekdayNum = WeekdayNum(weekday: int, n: int)

  // lists holds the integer BY-parts by key; an absent part has no entry.
  datatype Rule = Rule(
    freq: Option<Freq>, interval: int, count: int, until: bool, weekStart: int,
    lists: map<Key, seq<int>>, byDay: seq<WeekdayNum>)

  const BLANK := Rule(None, 0, 0, false, 1, map[], [])

  const WEEKDAY_TOKENS: seq<string> := ["SU", "MO", "TU", "WE", "TH", "FR", "SA"]

  // ---------- text ----------

  function ParseFreq(s: string): Option<Freq> {
    match IndexOf(FREQ_NAMES, s) case None => None case Some(i) => Some(FREQS[i])
  }

  function KeyOf(s: string): Option<Key> {
    match IndexOf(KEY_NAMES, s) case None => None case Some(i) => Some(KEYS[i])
  }

  function ParseInts(tokens: seq<string>): (r: Option<seq<int>>)
    ensures r.Some? ==> |r.value| == |tokens|
  {
    if tokens == [] then Some([])
    else match Atoi(tokens[0])
      case None => None
      case Some(n) => match ParseInts(tokens[1..]) case None => None case Some(ns) => Some([n] + ns)
  }

  function WeekdayOf(token: string): Option<int> {
    match IndexOf(WEEKDAY_TOKENS, token) case None => None case Some(i) => Some(i)
  }

  function ParseWeekday(token: string): Option<WeekdayNum> {
    if |token| < 2 then None
    else
      var ordinal := token[..|token| - 2];
      match WeekdayOf(token[|token| - 2..])
      case None => None
      case Some(w) =>
        if ordinal == "" then Some(WeekdayNum(w, 0))
        else match Atoi(ordinal) case None => None case Some(n) => Some(WeekdayNum(w, n))
  }

  function ParseWeekdays(tokens: seq<string>): (r: Option<seq<WeekdayNum>>)
    ensures r.Some? ==> |r.value| == |tokens|
  {
    if tokens == [] then Some([])
    else match ParseWeekday(tokens[0])
      case None => None
      case Some(w) => match ParseWeekdays(tokens[1..]) case None => None case Some(ws) => Some([w] + ws)
  }

  function SetProperty(r: Rule, key: Key, value: string): Option<Rule> {
    match key
    case KeyFreq => (match ParseFreq(value) case None => None case Some(f) => Some(r.(freq := Some(f))))
    case KeyInterval => (match Atoi(value) case None => None case Some(n) => Some(r.(interval := n)))
    case KeyCount => (match Atoi(value) case None => None case Some(n) => Some(r.(count := n)))
    case KeyUntil => Some(r.(until := true))
    case KeyWkst => (match WeekdayOf(value) case None => None case Some(w) => Some(r.(weekStart := w)))
    case KeyByDay =>
      (match ParseWeekdays(Split(value, ',')) case None => None case Some(ws) => Some(r.(byDay := ws)))
    case _ =>
      (match ParseInts(Split(value, ',')) case None => None case Some(ns) => Some(r.(lists := r.lists[key := ns])))
  }

  // One `KEY=VALUE` part.
  function ApplyPart(r: Rule, part: string): Option<Rule> {
    var kv := Split(part, '=');
    if |kv| != 2 || kv[1] == "" then None
    else match KeyOf(kv[0]) case None => None case Some(key) => SetProperty(r, key, kv[1])
  }

  // Parts are read left to right, so of two parts with one key the last wins.
  function ApplyParts(r: Rule, parts: seq<string>): Option<Rule>
    decreases |parts|
  {
    if parts == [] then Some(r)
    else match ApplyPart(r, parts[0]) case None => None case Some(r1) => ApplyParts(r1, parts[1..])
  }

  function RuleParts(s: string): seq<string> {
    Split(TrimPrefix(TrimSpace(s), "RRULE:"), ';')
  }

  // rrule.StrToROption on one line
  function ParseRule(s: string): Option<Rule> {
    match ApplyParts(BLANK, RuleParts(s))
    case None => None
    case Some(r) => if r.freq.None? || '\n' in TrimSpace(s) then None else Some(r)
  }

  lemma PartApplies(r: Rule, i: nat, value: string)
    requires i < 4 && '=' !in value && value != ""
    ensures ApplyPart(r, KEY_NAMES[i] + "=" + value) == SetProperty(r, KEYS[i], value)
  {
    var key := KEY_NAMES[i];
    SplitFirst(key, value, '=');
    SplitWhole(value, '=');
    assert key + "=" + value == key + ['='] + value;
    assert [key] + [value] == [key, value];
    assert forall j :: 0 <= j < i ==> |KEY_NAMES[j]| != |KEY_NAMES[i]|;
    IndexOfFirst(KEY_NAMES, i);
  }

  lemma RulePartsOf(parts: seq<string>)
    requires |parts| >= 1 && forall p :: p in parts ==> ';' !in p
    requires Trimmed(Join(parts, ";")) && !("RRULE:" <= Join(parts, ";"))
    ensures RuleParts(Join(parts, ";")) == parts
  {
    TrimSpaceFixes(Join(parts, ";"));
    SplitJoin(parts, ';');
  }

  // The text form of a rule given by its parts.
  lemma ReadsParts(parts: seq<string>, s: string)
    requires |parts| >= 1 && forall p :: p in parts ==> ';' !in p
    requires s == Join(parts, ";") && Trimmed(s) && !("RRULE:" <= s) && '\n' !in s
    ensures ParseRule(s) ==
            match ApplyParts(BLANK, parts) case None => None case Some(r) => if r.freq.None? then None else Some(r)
  {
    RulePartsOf(parts);
    TrimSpaceFixes(s);
  }

  lemma ApplyOne(r: Rule, p: string)
    ensures ApplyParts(r, [p]) == ApplyPart(r, p)
  {
    assert [p][1..] == [];
    match ApplyPart(r, p) case None => case Some(r1) => assert ApplyParts(r1, []) == Some(r1);
  }

  lemma ApplyFirst(r: Rule, p: string, ps: seq<string>)
    requires ApplyPart(r, p).Some?
    ensures ApplyParts(r, [p] + ps) == ApplyParts(ApplyPart(r, p).value, ps)
  {
    assert ([p] + ps)[1..] == ps;
  }

  lemma ReadsOne(p: string, r: Rule)
    requires ';' !in p && Trimmed(p) && !("RRULE:" <= p) && '\n' !in p
    requires ApplyPart(BLANK, p) == Some(r) && r.freq.Some?
    ensures ParseRule(p) == Some(r)
  {
    ApplyOne(BLANK, p);
    ReadsParts([p], p);
  }

  lemma ReadsTwo(p: string, r: Rule, q: string, r1: Rule)
    requires ';' !in p && ';' !in q
    requires var s := p + ";" + q; Trimmed(s) && !("RRULE:" <= s) && '\n' !in s
    requires ApplyPart(BLANK, p) == Some(r) && ApplyPart(r, q) == Some(r1) && r1.freq.Some?
    ensures ParseRule(p + ";" + q) == Some(r1)
  {
    ApplyFirst(BLANK, p, [q]);
    ApplyOne(r, q);
    assert [p] + [q] == [p, q] && [p, q][1..] == [q];
    ReadsParts([p, q], p + ";" + q);
  }

  lemma ReadsThree(p: string, r: Rule, q: string, r1: Rule, t: string, r2: Rule)
    requires ';' !in p && ';' !in q && ';' !in t
    requires var s := p + ";" + (q + ";" + t); Trimmed(s) && !("RRULE:" <= s) && '\n' !in s
    requires ApplyPart(BLANK, p) == Some(r) && ApplyPart(r, q) == Some(r1)
    requires ApplyPart(r1, t) == Some(r2) && r2.freq.Some?
    ensures ParseRule(p + ";" + (q + ";" + t)) == Some(r2)
  {
    ApplyFirst(BLANK, p, [q, t]);
    ApplyFirst(r, q, [t]);
    ApplyOne(r1, t);
    assert [p] + [q, t] == [p, q, t] && [q] + [t] == [q, t];
    assert [p, q, t][1..] == [q, t] && [q, t][1..] == [t];
    assert Join([q, t], ";") == q + ";" + t;
    ReadsParts([p, q, t], p + ";" + (q + ";" + t));
  }

  // ---------- meaning ----------

  predicate OnlyMonthLists(r: Rule) {
    && KeyBySetPos !in r.lists && KeyByYearDay !in r.lists && KeyByWeekNo !in r.lists
    && KeyByHour !in r.lists && KeyByMinute !in r.lists && KeyBySecond !in r.lists && KeyByEaster !in r.lists
  }

  // The fragment without limits on count, end, position or time of day.
  predicate Plain(r: Rule) {
    && r.freq.Some? && r.freq.value in {Daily, Weekly, Monthly, Yearly}
    && r.interval >= 0 && r.count == 0 && !r.until
    && OnlyMonthLists(r)
    && forall i :: 0 <= i < |r.byDay| ==> r.byDay[i].n == 0
  }

  // The bounds rrule.NewRRule puts on a plain rule.
  predicate InBounds(r: Rule) {
    && (forall m :: m in ByMonth(r) ==> 1 <= m <= 12)
    && (forall d :: d in ByMonthDay(r) ==> 1 <= d <= 31 || -31 <= d <= -1)
  }

  function ByMonth(r: Rule): seq<int> {
    if KeyByMonth in r.lists then r.lists[KeyByMonth] else []
  }

  function ByMonthDay(r: Rule): seq<int> {
    if KeyByMonthDay in r.lists then r.lists[KeyByMonthDay] else []
  }

  function Step(r: Rule): (n: int)
    ensures n >= 1
  {
    if r.interval < 1 then 1 else r.interval
  }

  // The first day of the week that holds d.
  function WeekNumber(d: Day, weekStart: int): int {
    (Number(d) - (Weekday(d) - weekStart) % 7 - weekStart) / 7
  }

  // Periods of the rule's frequency from DTSTART to d.
  function PeriodsBetween(r: Rule, start: Day, d: Day): int
    requires Plain(r)
  {
    match r.freq.value
    case Daily => Number(d) - Number(start)
    case Weekly => WeekNumber(d, r.weekStart) - WeekNumber(start, r.weekStart)
    case Monthly => 12 * (d.year - start.year) + d.month - start.month
    case Yearly => d.year - start.year
    case _ => 0
  }

  // Without BYDAY and BYMONTHDAY the missing parts come from DTSTART.
  predicate NoDayPart(r: Rule) {
    ByMonthDay(r) == [] && r.byDay == []
  }

  predicate MonthMatches(r: Rule, start: Day, d: Day) {
    if ByMonth(r) != [] then d.month in ByMonth(r)
    else r.freq == Some(Yearly) && NoDayPart(r) ==> d.month == start.month
  }

  predicate MonthDayMatches(r: Rule, start: Day, d: Day) {
    if ByMonthDay(r) != [] then
      d.day in ByMonthDay(r) || d.day - DaysIn(d.year, d.month) - 1 in ByMonthDay(r)
    else r.freq in {Some(Monthly), Some(Yearly)} && NoDayPart(r) ==> d.day == start.day
  }

  predicate WeekdayMatches(r: Rule, start: Day, d: Day) {
    if r.byDay != [] then WeekdayNum(Weekday(d), 0) in r.byDay
    else r.freq == Some(Weekly) && NoDayPart(r) ==> Weekday(d) == Weekday(start)
  }

  // d is a day of the recurrence set of r with DTSTART on day start.
  predicate Selects(r: Rule, start: Day, d: Day)
    requires Plain(r)
  {
    && Number(start) <= Number(d)
    && PeriodsBetween(r, start, d) % Step(r) == 0
    && MonthMatches(r, start, d) && MonthDayMatches(r, start, d) && WeekdayMatches(r, start, d)
  }

  // The time of day of every occurrence is the one of DTSTART.
  predicate Occurs(r: Rule, start: Instant, t: Instant)
    requires Plain(r)
  {
    Selects(r, start.day, t.day) && t.nanos == start.nanos
  }

  // ---------- the recurrence set repeats with the calendar ----------

  lemma {:induction false} MultipleAdds(x: int, q: nat, k: int)
    requires k >= 1
    ensures (x + q * k) % k == x % k
  {
    if q > 0 {
      MultipleAdds(x, q - 1, k);
      OneMoreMultiple(x + (q - 1) * k, k);
      assert x + q * k == x + (q - 1) * k + k;
    }
  }

  lemma OneMoreMultiple(x: int, k: int)
    requires k >= 1
    ensures (x + k) % k == x % k
  {
    var a, b := x / k, x % k;
    assert x == a * k + b;
    assert x + k == (a + 1) * k + b;
    SameRemainder(x + k, (x + k) / k, (x + k) % k, a + 1, b, k);
  }

  lemma AtLeastOnce(x: int, k: int)
    requires x >= 1 && k >= 1
    ensures x * k >= k
  {
  }

  lemma SameRemainder(y: int, a: int, b: int, c: int, d: int, k: int)
    requires k >= 1 && 0 <= b < k && 0 <= d < k
    requires y == a * k + b && y == c * k + d
    ensures b == d
  {
    var x := a - c;
    assert x * k == a * k - c * k;
    if x >= 1 { AtLeastOnce(x, k); } else if x <= -1 { AtLeastOnce(-x, k); }
  }

  lemma WeekNumberCycles(d: Day, weekStart: int, n: int)
    ensures WeekNumber(Cycles(d, n), weekStart) == WeekNumber(d, weekStart) + 20871 * n
  {
    CyclesKeepWeekday(d, n);
    var x := Number(d) - (Weekday(d) - weekStart) % 7 - weekStart;
    assert x + CYCLE * n == 7 * (x / 7 + 20871 * n) + x % 7;
  }

  function PeriodsPerCycle(r: Rule): nat {
    match r.freq case Some(Daily) => CYCLE case Some(Weekly) => 20871 case Some(Monthly) => 4800 case _ => 400
  }

  lemma PeriodsGrow(r: Rule, start: Day, d: Day, n: int)
    requires Plain(r)
    ensures PeriodsBetween(r, start, Cycles(d, n)) == PeriodsBetween(r, start, d) + PeriodsPerCycle(r) * n
  {
    CyclesKeepWeekday(d, n);
    WeekNumberCycles(d, r.weekStart, n);
  }

  lemma Regroup(a: int, k: int, s: int)
    ensures a * (k * s) == (a * k) * s
  {
  }

  lemma PeriodsCycle(r: Rule, start: Day, d: Day, k: nat)
    requires Plain(r)
    ensures PeriodsBetween(r, start, Cycles(d, k * Step(r))) % Step(r) == PeriodsBetween(r, start, d) % Step(r)
  {
    PeriodsGrow(r, start, d, k * Step(r));
    Regroup(PeriodsPerCycle(r), k, Step(r));
    MultipleAdds(PeriodsBetween(r, start, d), PeriodsPerCycle(r) * k, Step(r));
  }

  // 400 * k * Step(r) years after d the rule selects again exactly when it selects d.
  lemma CycleRepeats(r: Rule, start: Day, d: Day, k: nat)
    requires Plain(r) && Number(start) <= Number(d)
    ensures Number(d) <= Number(Cycles(d, k * Step(r)))
    ensures Selects(r, start, Cycles(d, k * Step(r))) <==> Selects(r, start, d)
  {
    var n := k * Step(r);
    assert n >= 0;
    PeriodsCycle(r, start, d, k);
    CyclesKeepWeekday(d, n);
    MonthsRepeat(d.year, n, d.month);
  }
}
