/** Which cron expressions the compiler accepts, exactly, read off their text, and what it makes of
    expressions of plain numbers. */
module CronAcceptance {
  import opened Text
  import opened Gregorian
  import opened CronRule
  import opened RRule
  import opened CronCompile
  import opened CronMeaning
  import opened CronPreservation

  // ---------- one piece of a field ----------

  predicate Letter(c: char) { 'a' <= c <= 'z' || 'A' <= c <= 'Z' }

  predicate Letterless(s: string) {
    forall i :: 0 <= i < |s| ==> !Letter(s[i])
  }

  // No step, no star, no question mark and, for months, no name.
  predicate PlainPiece(k: Kind, piece: string) {
    piece != "" && '/' !in piece && '*' !in piece && '?' !in piece && (k.MonthKind? ==> Letterless(piece))
  }

  lemma NumberHasNoLetter(tok: string)
    requires Atoi(tok).Some?
    ensures Letterless(tok)
  {
    AtoiHasDigits(tok);
    assert forall i :: 0 <= i < |tok| ==> tok[i] in tok;
  }

  lemma NumberTokenReads(k: Kind, tok: string)
    requires NoSpace(tok) && Atoi(tok).Some? && Low(k) <= Atoi(tok).value <= High(k)
    ensures Read(ReaderOf(k), tok).Some?
  {
    NoSpaceTrims(tok);
    if k.DowKind? { NumberIsNoName(tok); }
  }

  lemma WeekdayTokenReads(tok: string)
    requires NoSpace(tok) && IndexOf(WEEKDAYS, ToLower(tok)).Some?
    ensures Read(DowReader, tok).Some?
  {
    NoSpaceTrims(tok);
    ShortNameIsNoNumber(IndexOf(WEEKDAYS, ToLower(tok)).value);
  }

  lemma MonthNameHasLetter(tok: string)
    requires NameValue(MonthNames, tok).Some?
    ensures !Letterless(tok)
  {
    var low := ToLower(tok);
    var i := IndexOf(MONTHS, low).value;
    assert low == MONTHS[i] && 'a' <= MONTHS[i][0] <= 'z';
    assert low[0] == LowerChar(tok[0]) && Letter(tok[0]);
  }

  // A token the cron parser reads within bounds is read by the expansion too, months by number.
  lemma ParsedIsRead(k: Kind, tok: string)
    requires NoSpace(tok) && (k.MonthKind? ==> Letterless(tok))
    requires ParseIntOrName(tok, NamesOf(k)).Some?
    requires Low(k) <= ParseIntOrName(tok, NamesOf(k)).value <= High(k)
    ensures Read(ReaderOf(k), tok) == ParseIntOrName(tok, NamesOf(k))
  {
    if NameValue(MonthNames, tok).Some? { MonthNameHasLetter(tok); }
    if k.DowKind? && NameValue(WeekdayNames, tok).Some? {
      WeekdayTokenReads(tok);
    } else {
      NumberTokenReads(k, tok);
    }
    ReadAgrees(k, tok);
  }

  lemma {:induction false} SplitsInMore(s: string, sep: char)
    requires sep in s
    ensures |Split(s, sep)| >= 2
    decreases |s|
  {
    if s[0] != sep {
      assert sep in s[1..];
      SplitsInMore(s[1..], sep);
    }
  }

  lemma NotAMark(e: string)
    ensures '*' !in e ==> e != "*"
    ensures '?' !in e ==> e != "?"
  {
    assert "*"[0] == '*' && "?"[0] == '?';
  }

  // The two ends of a range, or the one number twice, as the cron parser reads them.
  predicate EndsParsed(k: Kind, a: string, b: string) {
    var low, high := ParseIntOrName(a, NamesOf(k)), ParseIntOrName(b, NamesOf(k));
    low.Some? && high.Some? && Low(k) <= low.value <= high.value <= High(k)
  }

  lemma WholePieceBounds(piece: string, lo: int, hi: int, names: Names)
    requires Split(piece, '/') == [piece] && ParsePiece(piece, lo, hi, names).Some?
    ensures var b := ParseBounds(Split(piece, '-'), lo, hi, names);
            b.Some? && lo <= b.value.start <= b.value.end <= hi
  {
  }

  lemma BoundsAreEnds(ends: seq<string>, lo: int, hi: int, names: Names)
    requires |ends| >= 1 && ends[0] != "*" && ends[0] != "?" && ParseBounds(ends, lo, hi, names).Some?
    ensures var b := ParseBounds(ends, lo, hi, names).value;
            && |ends| <= 2 && ParseIntOrName(ends[0], names) == Some(b.start)
            && ParseIntOrName(ends[|ends| - 1], names) == Some(b.end)
  {
  }

  // An end of a plain piece.
  predicate GoodEnd(k: Kind, e: string) {
    NoSpace(e) && e != "*" && e != "?" && (k.MonthKind? ==> Letterless(e))
  }

  lemma EndIsGood(k: Kind, piece: string, i: nat)
    requires NoSpace(piece) && PlainPiece(k, piece) && i < |Split(piece, '-')|
    ensures GoodEnd(k, Split(piece, '-')[i])
  {
    SplitKeepsNoSpace(piece, '-');
    var e := Split(piece, '-')[i];
    assert e in Split(piece, '-');
    NotAMark(e);
    if k.MonthKind? {
      forall j | 0 <= j < |e| ensures !Letter(e[j]) {
        assert e[j] in e && e[j] in piece;
      }
    }
  }

  predicate EndsRead(k: Kind, a: string, b: string) {
    var low, high := Read(ReaderOf(k), a), Read(ReaderOf(k), b);
    low.Some? && high.Some? && low.value <= high.value
  }

  lemma ParsedEndsAreRead(k: Kind, a: string, b: string)
    requires NoSpace(a) && NoSpace(b) && (k.MonthKind? ==> Letterless(a) && Letterless(b)) && EndsParsed(k, a, b)
    ensures EndsRead(k, a, b)
  {
    ParsedIsRead(k, a);
    ParsedIsRead(k, b);
  }

  lemma BoundsAreRead(k: Kind, ends: seq<string>)
    requires |ends| >= 1 && GoodEnd(k, ends[0]) && GoodEnd(k, ends[|ends| - 1])
    requires var b := ParseBounds(ends, Low(k), High(k), NamesOf(k));
             b.Some? && Low(k) <= b.value.start <= b.value.end <= High(k)
    ensures |ends| <= 2 && EndsRead(k, ends[0], ends[|ends| - 1])
  {
    BoundsAreEnds(ends, Low(k), High(k), NamesOf(k));
    ParsedEndsAreRead(k, ends[0], ends[|ends| - 1]);
  }

  lemma EndsAreRead(k: Kind, piece: string)
    requires NoSpace(piece) && PlainPiece(k, piece) && ParsePiece(piece, Low(k), High(k), NamesOf(k)).Some?
    ensures var ends := Split(piece, '-'); |ends| <= 2 && EndsRead(k, ends[0], ends[|ends| - 1])
  {
    SplitWhole(piece, '/');
    EndIsGood(k, piece, 0);
    EndIsGood(k, piece, |Split(piece, '-')| - 1);
    WholePieceBounds(piece, Low(k), High(k), NamesOf(k));
    BoundsAreRead(k, Split(piece, '-'));
  }

  lemma RangeExpands(reader: Reader, piece: string)
    requires NoSpace(piece) && '-' in piece && |Split(piece, '-')| == 2
    requires var a, b := Read(reader, Split(piece, '-')[0]), Read(reader, Split(piece, '-')[1]);
             a.Some? && b.Some? && a.value <= b.value
    ensures ExpandPiece(reader, piece).Some?
  {
    NoSpaceTrims(piece);
  }

  lemma PlainPieceExpands(k: Kind, piece: string)
    requires NoSpace(piece) && PlainPiece(k, piece) && ParsePiece(piece, Low(k), High(k), NamesOf(k)).Some?
    ensures ExpandPiece(ReaderOf(k), piece).Some?
  {
    EndsAreRead(k, piece);
    if '-' in piece {
      SplitsInMore(piece, '-');
      RangeExpands(ReaderOf(k), piece);
    } else {
      SplitWhole(piece, '-');
      NoSpaceTrims(piece);
    }
  }

  lemma TokenIsPlain(k: Kind, tok: string)
    requires NoSpace(tok) && Read(ReaderOf(k), tok).Some?
    ensures PlainPiece(k, tok)
  {
    ReadableHasNoMark(k, tok);
    if k.MonthKind? {
      NoSpaceTrims(tok);
      NumberHasNoLetter(tok);
    }
  }

  lemma RangeIsPlain(k: Kind, a: string, b: string)
    requires PlainPiece(k, a) && PlainPiece(k, b)
    ensures PlainPiece(k, a + ['-'] + b)
  {
    var s := a + ['-'] + b;
    forall i | 0 <= i < |s| ensures s[i] in a || s[i] in b || s[i] == '-' {
      if i < |a| { assert s[i] == a[i]; } else if i > |a| { assert s[i] == b[i - |a| - 1]; }
    }
    if k.MonthKind? {
      forall i | 0 <= i < |s| ensures !Letter(s[i]) {
        if i < |a| { assert s[i] == a[i]; } else if i > |a| { assert s[i] == b[i - |a| - 1]; }
      }
    }
  }

  lemma ExpandedPieceIsPlain(k: Kind, piece: string)
    requires NoSpace(piece) && ExpandPiece(ReaderOf(k), piece).Some?
    ensures PlainPiece(k, piece)
  {
    NoSpaceTrims(piece);
    if '-' in piece {
      var ends := Split(piece, '-');
      SplitKeepsNoSpace(piece, '-');
      TokenIsPlain(k, ends[0]);
      TokenIsPlain(k, ends[1]);
      RangeIsPlain(k, ends[0], ends[1]);
      JoinSplit(piece, '-');
      assert ends[1..] == [ends[1]];
      assert piece == ends[0] + ['-'] + ends[1];
    } else {
      TokenIsPlain(k, piece);
    }
  }

  // ---------- fields ----------

  predicate PlainPieces(k: Kind, pieces: seq<string>) {
    forall i :: 0 <= i < |pieces| ==> PlainPiece(k, pieces[i])
  }

  predicate PlainField(k: Kind, field: string) { PlainPieces(k, Split(field, ',')) }

  lemma PlainCons(k: Kind, pieces: seq<string>)
    requires pieces != []
    ensures PlainPieces(k, pieces) <==> PlainPiece(k, pieces[0]) && PlainPieces(k, pieces[1..])
  {
    if PlainPiece(k, pieces[0]) && PlainPieces(k, pieces[1..]) {
      forall i | 0 <= i < |pieces| ensures PlainPiece(k, pieces[i]) {
        if i > 0 { assert PlainPiece(k, pieces[1..][i - 1]); }
      }
    }
  }

  lemma {:induction false} PiecesExpandExactly(k: Kind, pieces: seq<string>)
    requires AllNoSpace(pieces) && ParsePieces(pieces, Low(k), High(k), NamesOf(k)).Some?
    ensures ExpandPieces(ReaderOf(k), pieces).Some? <==> PlainPieces(k, pieces)
  {
    if pieces != [] {
      PlainCons(k, pieces);
      PiecesExpandExactly(k, pieces[1..]);
      if PlainPiece(k, pieces[0]) {
        PlainPieceExpands(k, pieces[0]);
      } else if ExpandPiece(ReaderOf(k), pieces[0]).Some? {
        ExpandedPieceIsPlain(k, pieces[0]);
      }
    }
  }

  lemma StarIsNotPlain(k: Kind, field: string)
    requires field == "*" || HasPrefix(field, "*/")
    ensures !PlainField(k, field)
  {
    assert field[0] == '*';
    var first := Split(field, ',')[0];
    assert first[0] == '*' && '*' in first;
    assert !PlainPiece(k, first);
  }

  // A field the cron parser accepts is expanded if and only if each of its pieces is plain.
  lemma FieldExpandsExactly(k: Kind, field: string)
    requires NoSpace(field) && ParseField(field, Low(k), High(k), NamesOf(k)).Some?
    ensures ExpandField(ReaderOf(k), field).Some? <==> PlainField(k, field)
  {
    SplitKeepsNoSpace(field, ',');
    if field == "*" || HasPrefix(field, "*/") {
      StarIsNotPlain(k, field);
    } else {
      PiecesExpandExactly(k, Split(field, ','));
    }
  }

  // ---------- expressions ----------

  // A minute or hour without step, range or list.
  predicate PlainTime(f: string) {
    '-' !in f && ',' !in f && !(|f| >= 2 && f[0] == '*' && f[1] == '/')
  }

  // One of the four patterns of stars, and plain pieces wherever there is no star.
  predicate PlainDays(f: seq<string>)
    requires |f| == 5
  {
    && (f[2] == "*" || f[4] == "*") && (f[2] == "*" ==> f[3] == "*")
    && (f[2] != "*" ==> PlainField(DomKind, f[2]))
    && (f[3] != "*" ==> PlainField(MonthKind, f[3]))
    && (f[4] != "*" ==> PlainField(DowKind, f[4]))
  }

  predicate Convertible(expr: string) {
    var f := Fields(expr);
    |f| == 5 && ParseCron(expr).Some? && PlainTime(f[0]) && PlainTime(f[1]) && PlainDays(f)
  }

  lemma PlainTimePasses(f: string)
    ensures RefusedTimeField(f) <==> !PlainTime(f)
  {
    if |f| >= 2 { assert f[..2] == [f[0], f[1]]; }
  }

  lemma DayFieldsExpand(expr: string)
    requires ParseCron(expr).Some?
    ensures var f := Fields(expr);
            && (ExpandField(IntReader(1, 31), f[2]).Some? <==> PlainField(DomKind, f[2]))
            && (ExpandField(IntReader(1, 12), f[3]).Some? <==> PlainField(MonthKind, f[3]))
            && (ExpandField(DowReader, f[4]).Some? <==> PlainField(DowKind, f[4]))
  {
    var f := Fields(expr);
    assert IsWord(f[2]) && IsWord(f[3]) && IsWord(f[4]);
    FieldExpandsExactly(DomKind, f[2]);
    FieldExpandsExactly(MonthKind, f[3]);
    FieldExpandsExactly(DowKind, f[4]);
  }

  // Main result: an expression compiles if and only if the cron parser accepts it, minute and hour
  // are without step, range and list, the day fields have one of four patterns of stars, and their
  // other pieces are without step, star, question mark and month name.
  lemma AcceptedExactly(expr: string)
    ensures CronToRRule(expr).Some? <==> Convertible(expr)
  {
    var f := Fields(expr);
    if ParseCron(expr).Some? {
      PlainTimePasses(f[0]);
      PlainTimePasses(f[1]);
      DayFieldsExpand(expr);
    }
  }

  // ---------- expressions of plain numbers ----------

  // A field that holds one number within bounds.
  predicate NumberWithin(s: string, lo: int, hi: int) {
    PlainNumber(s) && lo <= Atoi(s).value <= hi
  }

  lemma NumberIsPlain(k: Kind, s: string)
    requires NumberWithin(s, Low(k), High(k))
    ensures s != "*" && PlainField(k, s)
    ensures ParseField(s, Low(k), High(k), NamesOf(k)) == Some(Field({Atoi(s).value}, false))
  {
    AtoiHasDigits(s);
    assert s[0] in s && '?' !in s;
    NumberHasNoLetter(s);
    SplitWhole(s, ',');
    NumberField(s, Low(k), High(k), NamesOf(k));
  }

  // A day field is a star or one number.
  predicate StarOrNumber(k: Kind, s: string) { s == "*" || NumberWithin(s, Low(k), High(k)) }

  function Chosen(k: Kind, s: string): set<int> {
    if s == "*" || Atoi(s).None? then Range(Low(k), High(k)) else {Atoi(s).value}
  }

  lemma StarOrNumberReads(k: Kind, s: string)
    requires StarOrNumber(k, s)
    ensures s != "*" ==> PlainField(k, s)
    ensures ParseField(s, Low(k), High(k), NamesOf(k)) == Some(Field(Chosen(k, s), s == "*"))
  {
    if s == "*" { StarField(Low(k), High(k), NamesOf(k)); } else { NumberIsPlain(k, s); }
  }

  lemma NumberTime(s: string, hi: int)
    requires NumberWithin(s, 0, hi)
    ensures PlainTime(s) && ParseField(s, 0, hi, NoNames).Some?
  {
    AtoiHasDigits(s);
    assert s[0] in s;
    NumberField(s, 0, hi, NoNames);
  }

  // minute, hour, and three day fields in one of the four patterns
  predicate NumberFields(f: seq<string>) {
    && |f| == 5 && AllWords(f) && NumberWithin(f[0], 0, 59) && NumberWithin(f[1], 0, 23)
    && StarOrNumber(DomKind, f[2]) && StarOrNumber(MonthKind, f[3]) && StarOrNumber(DowKind, f[4])
    && (f[2] == "*" || f[4] == "*") && (f[2] == "*" ==> f[3] == "*")
  }

  lemma NumbersParse(f: seq<string>)
    requires NumberFields(f)
    ensures ParseFields(f).Some? && PlainDays(f) && PlainTime(f[0]) && PlainTime(f[1])
    ensures var c := ParseFields(f).value;
            && c.dom == Field(Chosen(DomKind, f[2]), f[2] == "*")
            && c.month == Field(Chosen(MonthKind, f[3]), f[3] == "*")
            && c.dow == Field(Chosen(DowKind, f[4]), f[4] == "*")
  {
    NumberTime(f[0], 59);
    NumberTime(f[1], 23);
    StarOrNumberReads(DomKind, f[2]);
    StarOrNumberReads(MonthKind, f[3]);
    StarOrNumberReads(DowKind, f[4]);
  }

  // The day the fields name: a star leaves its column free.
  predicate NamedDay(f: seq<string>, d: Day)
    requires NumberFields(f)
  {
    && (f[2] == "*" || d.day == Atoi(f[2]).value) && (f[3] == "*" || d.month == Atoi(f[3]).value)
    && (f[4] == "*" || Weekday(d) == Atoi(f[4]).value)
  }

  // Main result: an expression of numbers and stars in one of the four patterns is never refused,
  // and its rule has the frequency of the pattern and selects exactly the days it names: every day,
  // one weekday, one day of every month, or one date of every year.
  lemma NumbersCompile(f: seq<string>) returns (r: Rule)
    requires NumberFields(f)
    ensures CronToRRule(Join(f, " ")).Some? && ParseRule(CronToRRule(Join(f, " ")).value) == Some(r)
    ensures Plain(r) && FrequencyFits(f, r.freq.value)
    ensures forall start: Day, d: Day :: Number(start) <= Number(d) ==> (Selects(r, start, d) <==> NamedDay(f, d))
  {
    var expr := Join(f, " ");
    FieldsOfJoin(f);
    NumbersParse(f);
    AcceptedExactly(expr);
    CompilationPreservesDays(expr);
    var c := ParseCron(expr).value;
    r := ParseRule(CronToRRule(expr).value).value;
    forall start: Day, d: Day | Number(start) <= Number(d) ensures Selects(r, start, d) <==> NamedDay(f, d) {
      NamedDayIsSelected(c, f, d);
      assert Selects(r, start, d) <==> SelectsDay(c, d);
    }
  }

  lemma NamedDayIsSelected(c: Cron, f: seq<string>, d: Day)
    requires NumberFields(f)
    requires c.dom == Field(Chosen(DomKind, f[2]), f[2] == "*")
    requires c.month == Field(Chosen(MonthKind, f[3]), f[3] == "*")
    requires c.dow == Field(Chosen(DowKind, f[4]), f[4] == "*")
    ensures SelectsDay(c, d) <==> NamedDay(f, d)
  {
    assert d.day in Range(1, 31) && d.month in Range(1, 12) && Weekday(d) in Range(0, 6);
  }
}
