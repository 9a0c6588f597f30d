/** The numbers a cron field expands to are the values the cron parser reads from it. */
module CronMeaning {
  import opened Text
  import opened Gregorian
  import opened CronRule
  import opened RRule
  import opened CronCompile

  // ---------- fields: what the expansion lists is what the cron parser selects ----------

  lemma NoSpaceTrims(s: string)
    requires NoSpace(s)
    ensures TrimSpace(s) == s
  {
    TrimSpaceFixes(s);
  }

  lemma SplitKeepsNoSpace(s: string, sep: char)
    requires NoSpace(s)
    ensures AllNoSpace(Split(s, sep))
  {
    forall i | 0 <= i < |Split(s, sep)| ensures NoSpace(Split(s, sep)[i]) {
      var p := Split(s, sep)[i];
      assert p in Split(s, sep);
      forall j | 0 <= j < |p| ensures !IsSpace(p[j]) {
        assert p[j] in p && p[j] in s;
      }
    }
  }

  predicate AllNoSpace(ps: seq<string>) {
    forall i :: 0 <= i < |ps| ==> NoSpace(ps[i])
  }

  lemma DigitToken(i: nat)
    requires i < 7
    ensures Atoi(DOW_DIGITS[i]) == Some(i)
  {
    var s := DOW_DIGITS[i];
    assert |s| == 1 && s[..0] == "" && IsDigit(s[0]);
    assert DigitsValue(s) == s[0] as int - '0' as int;
  }

  lemma LongNameIsNoToken(i: nat)
    requires i < 7
    ensures DOW_LONG[i] !in WEEKDAYS && Atoi(DOW_LONG[i]).None?
  {
    var s := DOW_LONG[i];
    assert |s| >= 6 && forall j :: 0 <= j < 7 ==> |WEEKDAYS[j]| == 3;
    assert !IsDigit(s[0]) && s[0] != '+' && s[0] != '-';
  }

  lemma SevenToken()
    ensures Atoi("7") == Some(7)
  {
    assert "7"[..0] == "" && IsDigit("7"[0]);
  }

  lemma NumberIsNoName(tok: string)
    requires Atoi(tok).Some?
    ensures tok !in WEEKDAYS && ToLower(tok) == tok
  {
    AtoiHasDigits(tok);
    assert tok[0] in tok;
    assert forall i :: 0 <= i < |tok| ==> tok[i] in tok;
    assert forall j :: 0 <= j < 7 ==> !IsDigit(WEEKDAYS[j][0]) && WEEKDAYS[j][0] != '+' && WEEKDAYS[j][0] != '-';
    assert ToLower(tok) == tok;
  }

  lemma DowReadAgrees(tok: string)
    requires NoSpace(tok)
    requires DowTokenToNumber(tok).Some?
    requires ParseIntOrName(tok, WeekdayNames).Some? && ParseIntOrName(tok, WeekdayNames).value <= 6
    ensures ParseIntOrName(tok, WeekdayNames) == DowTokenToNumber(tok)
  {
    NoSpaceTrims(tok);
    var low := ToLower(tok);
    var short := IndexOf(WEEKDAYS, low);
    if short.Some? {
      assert low == WEEKDAYS[short.value];
      ShortNameIsNoNumber(short.value);
    } else {
      assert Atoi(tok).Some?;
      NumberIsNoName(tok);
      var digit := IndexOf(DOW_DIGITS, low);
      var long := IndexOf(DOW_LONG, low);
      SevenToken();
      if digit.Some? { DigitToken(digit.value); }
      if long.Some? { LongNameIsNoToken(long.value); }
    }
  }

  lemma ShortNameIsNoNumber(i: nat)
    requires i < 7
    ensures WEEKDAYS[i] !in DOW_DIGITS && WEEKDAYS[i] != "7" && IndexOf(WEEKDAYS, WEEKDAYS[i]) == Some(i)
    ensures IndexOf(DOW_DIGITS, WEEKDAYS[i]) == None
  {
    assert |WEEKDAYS[i]| == 3 && forall j :: 0 <= j < 7 ==> |DOW_DIGITS[j]| == 1;
    var r := IndexOf(WEEKDAYS, WEEKDAYS[i]).value;
    var codes := seq(7, j requires 0 <= j < 7 => 1000 * (WEEKDAYS[j][0] as int) + WEEKDAYS[j][1] as int);
    assert codes == [115117, 109111, 116117, 119101, 116104, 102114, 115097];
    assert codes[r] == codes[i];
  }

  // The bounds of a cron field next to the reader that expands it.
  datatype Kind = DomKind | MonthKind | DowKind

  function Low(k: Kind): int { if k.DowKind? then 0 else 1 }

  function High(k: Kind): int { if k.DomKind? then 31 else if k.MonthKind? then 12 else 6 }

  function NamesOf(k: Kind): Names { if k.DomKind? then NoNames else if k.MonthKind? then MonthNames else WeekdayNames }

  function ReaderOf(k: Kind): Reader { if k.DowKind? then DowReader else IntReader(1, High(k)) }

  lemma ReadAgrees(k: Kind, tok: string)
    requires NoSpace(tok)
    requires Read(ReaderOf(k), tok).Some?
    requires ParseIntOrName(tok, NamesOf(k)).Some? && ParseIntOrName(tok, NamesOf(k)).value <= High(k)
    ensures ParseIntOrName(tok, NamesOf(k)) == Read(ReaderOf(k), tok)
  {
    NoSpaceTrims(tok);
    if k.DowKind? { DowReadAgrees(tok); } else { NotAName(tok, NamesOf(k)); }
  }

  predicate TokenChar(c: char) { 'a' <= c <= 'z' || IsDigit(c) || c == '+' || c == '-' }

  predicate TokenChars(s: string) {
    s != "" && forall i :: 0 <= i < |s| ==> TokenChar(s[i])
  }

  lemma TokenTables(i: nat)
    requires i < 7
    ensures TokenChars(DOW_DIGITS[i]) && TokenChars(WEEKDAYS[i]) && TokenChars(DOW_LONG[i])
  {
  }

  lemma NumberChars(tok: string)
    requires Atoi(tok).Some?
    ensures TokenChars(tok)
  {
    AtoiHasDigits(tok);
    assert forall i :: 0 <= i < |tok| ==> tok[i] in tok;
  }

  lemma DowTokenChars(tok: string)
    requires NoSpace(tok) && DowTokenToNumber(tok).Some?
    ensures TokenChars(ToLower(tok))
  {
    NoSpaceTrims(tok);
    var low := ToLower(tok);
    var digit, short, long := IndexOf(DOW_DIGITS, low), IndexOf(WEEKDAYS, low), IndexOf(DOW_LONG, low);
    if low == "7" {
    } else if digit.Some? {
      TokenTables(digit.value);
    } else if short.Some? {
      TokenTables(short.value);
    } else if long.Some? {
      TokenTables(long.value);
    } else {
      NumberChars(low);
    }
  }

  lemma LowerTokenHasNoMark(tok: string)
    requires TokenChars(ToLower(tok))
    ensures '/' !in tok && '*' !in tok && '?' !in tok && tok != "" && tok != "*" && tok != "?"
  {
    var low := ToLower(tok);
    forall i | 0 <= i < |tok| ensures tok[i] != '/' && tok[i] != '*' && tok[i] != '?' {
      assert TokenChar(low[i]) && low[i] == LowerChar(tok[i]);
    }
    assert |tok| > 0 && tok[0] != '*' && tok[0] != '?';
  }

  lemma NumberLowers(tok: string)
    requires Atoi(tok).Some?
    ensures TokenChars(ToLower(tok))
  {
    NumberChars(tok);
    assert forall i :: 0 <= i < |tok| ==> TokenChar(tok[i]) && ToLower(tok)[i] == tok[i];
  }

  lemma ReadableHasNoMark(k: Kind, tok: string)
    requires NoSpace(tok) && Read(ReaderOf(k), tok).Some?
    ensures '/' !in tok && '*' !in tok && '?' !in tok && tok != "" && tok != "*" && tok != "?"
  {
    NoSpaceTrims(tok);
    if k.DowKind? { DowTokenChars(tok); } else { NumberLowers(tok); }
    LowerTokenHasNoMark(tok);
  }

  lemma SetOfUpTo(a: int, b: int)
    ensures SetOf(UpTo(a, b)) == Range(a, b)
  {
    var s := UpTo(a, b);
    forall n ensures n in SetOf(s) <==> n in Range(a, b) {
      if a <= n <= b { assert s[n - a] == n; }
    }
  }

  lemma SingleAgrees(k: Kind, piece: string)
    requires NoSpace(piece) && '-' !in piece
    requires Read(ReaderOf(k), piece).Some?
    requires ParsePiece(piece, Low(k), High(k), NamesOf(k)).Some?
    ensures ParsePiece(piece, Low(k), High(k), NamesOf(k)) ==
            Some(Field(SetOf([Read(ReaderOf(k), piece).value]), false))
  {
    SplitWhole(piece, '-');
    ReadableHasNoMark(k, piece);
    SplitWhole(piece, '/');
    SinglePiece(piece, Low(k), High(k), NamesOf(k));
    var n := ParseIntOrName(piece, NamesOf(k));
    ReadAgrees(k, piece);
    SetOfUpTo(n.value, n.value);
    assert UpTo(n.value, n.value) == [n.value];
  }

  lemma RangeHasNoSlash(k: Kind, piece: string)
    requires NoSpace(piece) && |Split(piece, '-')| == 2
    requires Read(ReaderOf(k), Split(piece, '-')[0]).Some? && Read(ReaderOf(k), Split(piece, '-')[1]).Some?
    ensures Split(piece, '/') == [piece]
    ensures NoSpace(Split(piece, '-')[0]) && NoSpace(Split(piece, '-')[1])
  {
    var ends := Split(piece, '-');
    SplitKeepsNoSpace(piece, '-');
    ReadableHasNoMark(k, ends[0]);
    ReadableHasNoMark(k, ends[1]);
    JoinSplit(piece, '-');
    assert ends[1..] == [ends[1]];
    assert piece == ends[0] + ['-'] + ends[1];
    SplitWhole(piece, '/');
  }

  lemma RangeAgrees(k: Kind, piece: string)
    requires NoSpace(piece) && |Split(piece, '-')| == 2
    requires Read(ReaderOf(k), Split(piece, '-')[0]).Some? && Read(ReaderOf(k), Split(piece, '-')[1]).Some?
    requires ParsePiece(piece, Low(k), High(k), NamesOf(k)).Some?
    ensures var a, b := Read(ReaderOf(k), Split(piece, '-')[0]).value, Read(ReaderOf(k), Split(piece, '-')[1]).value;
            ParsePiece(piece, Low(k), High(k), NamesOf(k)) == Some(Field(SetOf(UpTo(a, b)), false))
  {
    var ends := Split(piece, '-');
    RangeHasNoSlash(k, piece);
    ReadableHasNoMark(k, ends[0]);
    RangePiece(piece, Low(k), High(k), NamesOf(k));
    var a, b := ParseIntOrName(ends[0], NamesOf(k)), ParseIntOrName(ends[1], NamesOf(k));
    ReadAgrees(k, ends[0]);
    ReadAgrees(k, ends[1]);
    SetOfUpTo(a.value, b.value);
  }

  lemma PieceAgrees(k: Kind, piece: string)
    requires NoSpace(piece)
    requires ExpandPiece(ReaderOf(k), piece).Some?
    requires ParsePiece(piece, Low(k), High(k), NamesOf(k)).Some?
    ensures ParsePiece(piece, Low(k), High(k), NamesOf(k)) ==
            Some(Field(SetOf(ExpandPiece(ReaderOf(k), piece).value), false))
  {
    NoSpaceTrims(piece);
    if '-' in piece { RangeAgrees(k, piece); } else { SingleAgrees(k, piece); }
  }

  lemma {:induction false} PiecesAgree(k: Kind, pieces: seq<string>)
    requires AllNoSpace(pieces)
    requires ExpandPieces(ReaderOf(k), pieces).Some?
    requires ParsePieces(pieces, Low(k), High(k), NamesOf(k)).Some?
    ensures ParsePieces(pieces, Low(k), High(k), NamesOf(k)) ==
            Some(Field(SetOf(ExpandPieces(ReaderOf(k), pieces).value), false))
  {
    if pieces == [] {
      var none: seq<int> := [];
      assert SetOf(none) == {};
    } else {
      NoSpaceTrims(pieces[0]);
      PieceAgrees(k, pieces[0]);
      PiecesAgree(k, pieces[1..]);
      SetOfAppend(ExpandPiece(ReaderOf(k), pieces[0]).value, ExpandPieces(ReaderOf(k), pieces[1..]).value);
    }
  }

  // A field both sides accept stands for one set of numbers on both.
  lemma FieldAgrees(k: Kind, field: string)
    requires NoSpace(field)
    requires ExpandField(ReaderOf(k), field).Some?
    requires ParseField(field, Low(k), High(k), NamesOf(k)).Some?
    ensures ParseField(field, Low(k), High(k), NamesOf(k)) ==
            Some(Field(SetOf(ExpandField(ReaderOf(k), field).value), false))
  {
    SplitKeepsNoSpace(field, ',');
    PiecesAgree(k, Split(field, ','));
  }
}
