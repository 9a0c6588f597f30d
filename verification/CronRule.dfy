/** Five-field cron expressions as github.com/robfig/cron/v3 reads them with ParseStandard, and
    the days and instants such an expression selects. */
module CronRule {
  import opened Text
  import opened Gregorian

  // star records a `*` or `?` in the field; it decides how day of month and weekday combine.
  datatype Field = Field(values: set<int>, star: bool)

  datatype Names = NoNames | MonthNames | WeekdayNames

  const MONTHS: seq<string> := ["jan", "feb", "mar", "apr", "may", "jun", "jul", "aug", "sep", "oct", "nov", "dec"]
  const WEEKDAYS: seq<string> := ["sun", "mon", "tue", "wed", "thu", "fri", "sat"]

  function NameValue(names: Names, tok: string): Option<int> {
    match names
    case NoNames => None
    case MonthNames => (match IndexOf(MONTHS, ToLower(tok)) case None => None case Some(i) => Some(i + 1))
    case WeekdayNames => (match IndexOf(WEEKDAYS, ToLower(tok)) case None => None case Some(i) => Some(i))
  }

  function ParseIntOrName(tok: string, names: Names): Option<int> {
    match NameValue(names, tok)
    case Some(n) => Some(n)
    case None => match Atoi(tok) case Some(n) => if n < 0 then None else Some(n) case None => None
  }

  predicate OnStep(n: int, start: int, step: int)
    requires step >= 1
  {
    (n - start) % step == 0
  }

  function Stepped(lo: int, hi: int, step: int): set<int>
    requires step >= 1
  {
    set n | lo <= n <= hi && OnStep(n, lo, step)
  }

  function Range(lo: int, hi: int): (r: set<int>)
    ensures forall n :: n in r <==> lo <= n <= hi
  {
    assert forall n :: OnStep(n, lo, 1);
    Stepped(lo, hi, 1)
  }

  datatype Bounds = Bounds(start: int, end: int, star: bool)

  // `*`, `?`, `n` or `n-m`; anything after `*-` is ignored.
  function ParseBounds(ends: seq<string>, lo: int, hi: int, names: Names): Option<Bounds>
    requires |ends| >= 1
  {
    if ends[0] == "*" || ends[0] == "?" then Some(Bounds(lo, hi, true))
    else match ParseIntOrName(ends[0], names)
      case None => None
      case Some(start) =>
        if |ends| == 1 then Some(Bounds(start, start, false))
        else if |ends| != 2 then None
        else match ParseIntOrName(ends[1], names)
          case None => None
          case Some(end) => Some(Bounds(start, end, false))
  }

  // One comma-separated piece of a field: a range and an optional step.
  function ParsePiece(piece: string, lo: int, hi: int, names: Names): Option<Field> {
    var rangeAndStep := Split(piece, '/');
    var ends := Split(rangeAndStep[0], '-');
    match ParseBounds(ends, lo, hi, names)
    case None => None
    case Some(b) =>
      if |rangeAndStep| > 2 then None
      else
        var step := if |rangeAndStep| == 1 then Some(1) else Atoi(rangeAndStep[1]);
        if step.None? || step.value < 1 then None
        else
          // `n/step` runs to the end of the field.
          var end := if |rangeAndStep| == 2 && |ends| == 1 then hi else b.end;
          if b.start < lo || end > hi || b.start > end then None
          else Some(Field(Stepped(b.start, end, step.value), b.star && step.value == 1))
  }

  function Union(a: Field, b: Field): Field {
    Field(a.values + b.values, a.star || b.star)
  }

  // Empty pieces are skipped.
  function ParsePieces(pieces: seq<string>, lo: int, hi: int, names: Names): Option<Field> {
    if pieces == [] then Some(Field({}, false))
    else if pieces[0] == "" then ParsePieces(pieces[1..], lo, hi, names)
    else match ParsePiece(pieces[0], lo, hi, names)
      case None => None
      case Some(f) =>
        match ParsePieces(pieces[1..], lo, hi, names)
        case None => None
        case Some(g) => Some(Union(f, g))
  }

  function ParseField(field: string, lo: int, hi: int, names: Names): Option<Field> {
    ParsePieces(Split(field, ','), lo, hi, names)
  }

  datatype Cron = Cron(minute: Field, hour: Field, dom: Field, month: Field, dow: Field)

  // cron.ParseStandard on a five-field expression
  function ParseCron(expr: string): Option<Cron> {
    var f := Fields(expr);
    if |f| != 5 then None else ParseFields(f)
  }

  function ParseFields(f: seq<string>): Option<Cron>
    requires |f| == 5
  {
    var minute := ParseField(f[0], 0, 59, NoNames);
    var hour := ParseField(f[1], 0, 23, NoNames);
    var dom := ParseField(f[2], 1, 31, NoNames);
    var month := ParseField(f[3], 1, 12, MonthNames);
    var dow := ParseField(f[4], 0, 6, WeekdayNames);
    if minute.Some? && hour.Some? && dom.Some? && month.Some? && dow.Some? then
      Some(Cron(minute.value, hour.value, dom.value, month.value, dow.value))
    else None
  }

  // Day of month and weekday are joined by "and" when either is a star, by "or" otherwise.
  predicate SelectsDay(c: Cron, d: Day) {
    var dom := d.day in c.dom.values;
    var dow := Weekday(d) in c.dow.values;
    d.month in c.month.values && if c.dom.star || c.dow.star then dom && dow else dom || dow
  }

  predicate Fires(c: Cron, t: Instant) {
    && SelectsDay(c, t.day)
    && Hour(t) in c.hour.values
    && Minute(t) in c.minute.values
    && t.nanos == Clock(Hour(t), Minute(t), 0)
  }

  lemma {:induction false} ParsedInBounds(pieces: seq<string>, lo: int, hi: int, names: Names)
    requires ParsePieces(pieces, lo, hi, names).Some?
    ensures forall v :: v in ParsePieces(pieces, lo, hi, names).value.values ==> lo <= v <= hi
  {
    if pieces != [] { ParsedInBounds(pieces[1..], lo, hi, names); }
  }

  // ---------- the fields the recurrence code writes ----------

  lemma SinglePiece(piece: string, lo: int, hi: int, names: Names)
    requires Split(piece, '/') == [piece] && Split(piece, '-') == [piece]
    requires piece != "*" && piece != "?"
    requires ParsePiece(piece, lo, hi, names).Some?
    ensures var n := ParseIntOrName(piece, names);
            n.Some? && n.value <= hi && ParsePiece(piece, lo, hi, names) == Some(Field(Range(n.value, n.value), false))
  {
  }

  lemma RangePiece(piece: string, lo: int, hi: int, names: Names)
    requires Split(piece, '/') == [piece] && |Split(piece, '-')| == 2
    requires Split(piece, '-')[0] != "*" && Split(piece, '-')[0] != "?"
    requires ParsePiece(piece, lo, hi, names).Some?
    ensures var a, b := ParseIntOrName(Split(piece, '-')[0], names), ParseIntOrName(Split(piece, '-')[1], names);
            && a.Some? && b.Some? && a.value <= b.value <= hi
            && ParsePiece(piece, lo, hi, names) == Some(Field(Range(a.value, b.value), false))
  {
  }

  lemma StarField(lo: int, hi: int, names: Names)
    requires lo <= hi
    ensures ParseField("*", lo, hi, names) == Some(Field(Range(lo, hi), true))
  {
    SplitWhole("*", ',');
    SplitWhole("*", '/');
    SplitWhole("*", '-');
    assert Split("*", ',')[1..] == [];
    assert ParsePiece("*", lo, hi, names) == Some(Field(Range(lo, hi), true));
    assert Range(lo, hi) + {} == Range(lo, hi);
    assert ParsePieces([], lo, hi, names) == Some(Field({}, false));
  }

  predicate PlainNumber(s: string) {
    Atoi(s).Some? && ',' !in s && '-' !in s && '*' !in s && '/' !in s
  }

  lemma NotAName(s: string, names: Names)
    requires Atoi(s).Some?
    ensures NameValue(names, s).None?
  {
    AtoiHasDigits(s);
    var c := ToLower(s)[0];
    assert s[0] in s;
    assert forall i :: 0 <= i < |MONTHS| ==> MONTHS[i][0] != c;
    assert forall i :: 0 <= i < |WEEKDAYS| ==> WEEKDAYS[i][0] != c;
  }

  lemma NumberBounds(s: string, lo: int, hi: int, names: Names)
    requires PlainNumber(s) && 0 <= Atoi(s).value
    ensures s != "" && ParseBounds([s], lo, hi, names) == Some(Bounds(Atoi(s).value, Atoi(s).value, false))
  {
    NotAName(s, names);
    AtoiHasDigits(s);
    assert s[0] in s && s != "*" && s != "?";
  }

  lemma NumberPiece(s: string, lo: int, hi: int, names: Names)
    requires PlainNumber(s) && 0 <= lo <= Atoi(s).value <= hi
    ensures s != "" && ParsePiece(s, lo, hi, names) == Some(Field({Atoi(s).value}, false))
  {
    var n := Atoi(s).value;
    SplitWhole(s, '/');
    SplitWhole(s, '-');
    NumberBounds(s, lo, hi, names);
    BoundedPiece(s, lo, hi, names, n);
    assert Range(n, n) == {n};
  }

  lemma BoundedPiece(s: string, lo: int, hi: int, names: Names, n: int)
    requires Split(s, '/') == [s] && Split(s, '-') == [s] && lo <= n <= hi
    requires ParseBounds([s], lo, hi, names) == Some(Bounds(n, n, false))
    ensures ParsePiece(s, lo, hi, names) == Some(Field(Range(n, n), false))
  {
  }

  lemma NoPieces(pieces: seq<string>, lo: int, hi: int, names: Names)
    requires pieces == []
    ensures ParsePieces(pieces, lo, hi, names) == Some(Field({}, false))
  {
  }

  lemma OnePiece(pieces: seq<string>, lo: int, hi: int, names: Names, values: set<int>)
    requires |pieces| == 1 && pieces[0] != "" && ParsePiece(pieces[0], lo, hi, names) == Some(Field(values, false))
    ensures ParsePieces(pieces, lo, hi, names) == Some(Field(values, false))
  {
    NoPieces(pieces[1..], lo, hi, names);
    assert values + {} == values;
  }

  lemma NumberField(s: string, lo: int, hi: int, names: Names)
    requires PlainNumber(s) && 0 <= lo <= Atoi(s).value <= hi
    ensures ParseField(s, lo, hi, names) == Some(Field({Atoi(s).value}, false))
  {
    NumberPiece(s, lo, hi, names);
    SplitWhole(s, ',');
    OnePiece(Split(s, ','), lo, hi, names, {Atoi(s).value});
  }
}
