/** shiftRRuleFromCompletion: re-anchoring a recurrence rule on a completion day. */
module RRuleShift {
  import opened Text
  import opened Gregorian
  import opened RRule
  import opened RuleRewrite
  import opened RuleFields
  import opened Completions

  const DTSTART := "DTSTART"

  predicate HasDtstart(s: string) { Contains(ToUpper(s), DTSTART) }

  // A single interval: at most one weekday, month day and month, and no limit.
  predicate Shiftable(r: Rule) {
    && r.freq.Some? && r.freq.value in {Daily, Weekly, Monthly, Yearly}
    && r.interval >= 0 && r.count == 0 && !r.until
    && OnlyMonthLists(r)
    && |r.byDay| <= 1 && |ByMonthDay(r)| <= 1 && |ByMonth(r)| <= 1
    && (|r.byDay| == 1 ==> r.byDay[0].n == 0)
  }

  function Name(k: Key): string {
    match k
    case KeyByDay => "BYDAY"
    case KeyByMonth => "BYMONTH"
    case KeyByMonthDay => "BYMONTHDAY"
    case _ => KEY_NAMES[Rank(k)]
  }

  function AnchorParts(r: Rule, anchor: Day): map<string, string> {
    var byDay := if |r.byDay| == 1 then map[Name(KeyByDay) := WEEKDAY_TOKENS[Weekday(anchor)]] else map[];
    var byMonthDay := if |ByMonthDay(r)| == 1 then map[Name(KeyByMonthDay) := Itoa(anchor.day)] else map[];
    var byMonth := if |ByMonth(r)| == 1 then map[Name(KeyByMonth) := Itoa(anchor.month)] else map[];
    byDay + byMonthDay + byMonth
  }

  // shiftRRuleFromCompletion
  function ShiftRRule(rule: string, anchor: Day): Option<string> {
    var raw := TrimSpace(rule);
    if '\n' in raw || HasDtstart(raw) then None
    else match ParseRule(raw)
      case None => None
      case Some(r) =>
        if !Shiftable(r) then None
        else
          var repl := AnchorParts(r, anchor);
          if repl == map[] then Some(TrimPrefix(raw, "RRULE:")) else ReplaceRRuleParts(raw, repl)
  }

  // ---------- the written values ----------

  lemma KeyNamesDiffer()
    ensures Distinct(KEY_NAMES)
  {
  }

  lemma KeyNameFound(names: seq<string>, i: nat)
    requires names == KEY_NAMES && i < |names|
    ensures IndexOf(KEY_NAMES, names[i]) == Some(i)
  {
    KeyNamesDiffer();
    IndexOfDistinct(names, i);
  }

  lemma FoundKey(s: string, i: nat)
    requires IndexOf(KEY_NAMES, s) == Some(i)
    ensures KeyOf(s) == Some(KEYS[i])
  {
  }

  lemma KeyAtRank(k: Key)
    ensures KEYS[Rank(k)] == k
  {
  }

  lemma NameInTable(k: Key)
    ensures Name(k) == KEY_NAMES[Rank(k)]
  {
  }

  lemma NameReads(k: Key)
    ensures KeyOf(Name(k)) == Some(k)
  {
    NameInTable(k);
    KeyNameFound(KEY_NAMES, Rank(k));
    FoundKey(Name(k), Rank(k));
    KeyAtRank(k);
  }

  lemma NamesOfKeys(k: Key, l: Key)
    ensures Name(k) == Name(l) ==> k == l
  {
    NameReads(k);
    NameReads(l);
  }

  lemma TokensDistinct()
    ensures Distinct(WEEKDAY_TOKENS)
  {
  }

  lemma TokenFound(tokens: seq<string>, w: int)
    requires tokens == WEEKDAY_TOKENS && 0 <= w < 7
    ensures WeekdayOf(tokens[w]) == Some(w)
  {
    TokensDistinct();
    IndexOfDistinct(tokens, w);
  }

  lemma BareWeekday(t: string, w: int)
    requires |t| == 2 && WeekdayOf(t) == Some(w)
    ensures ParseWeekday(t) == Some(WeekdayNum(w, 0))
  {
    assert t[..0] == "" && t[0..] == t;
  }

  lemma OneWeekday(t: string, d: WeekdayNum)
    requires ParseWeekday(t) == Some(d)
    ensures ParseWeekdays([t]) == Some([d])
  {
    var rest: seq<string> := [t][1..];
    assert rest == [] && ParseWeekdays(rest) == Some([]);
    assert [d] + [] == [d] && [t][0] == t;
  }

  lemma OneInt(t: string, n: int)
    requires Atoi(t) == Some(n)
    ensures ParseInts([t]) == Some([n])
  {
    var rest: seq<string> := [t][1..];
    assert rest == [] && ParseInts(rest) == Some([]);
    assert [n] + [] == [n] && [t][0] == t;
  }

  lemma NoComma(s: string)
    requires Letters(s) || Digits(s)
    ensures ',' !in s
  {
  }

  lemma WeekdayValue(w: int)
    requires 0 <= w < 7
    ensures var t := WEEKDAY_TOKENS[w];
            |t| == 2 && Letters(t) && Parsed(KeyByDay, t) == Some(DaysAre([WeekdayNum(w, 0)]))
  {
    var t := WEEKDAY_TOKENS[w];
    TokenLetters();
    NoComma(t);
    SplitWhole(t, ',');
    TokenFound(WEEKDAY_TOKENS, w);
    BareWeekday(t, w);
    OneWeekday(t, WeekdayNum(w, 0));
  }

  lemma ShortNumber(n: int)
    requires 1 <= n <= 31
    ensures 1 <= |Itoa(n)| <= 2
  {
    if n >= 10 { assert |Itoa(n / 10)| == 1; }
  }

  lemma NumberValue(k: Key, n: int)
    requires (k == KeyByMonth || k == KeyByMonthDay) && 1 <= n <= 31
    ensures 1 <= |Itoa(n)| <= 2 && Parsed(k, Itoa(n)) == Some(IntsAre([n]))
  {
    ShortNumber(n);
    NoComma(Itoa(n));
    SplitWhole(Itoa(n), ',');
    AtoiItoa(n);
    OneInt(Itoa(n), n);
  }

  predicate Anchoring(k: Key) { k == KeyByDay || k == KeyByMonth || k == KeyByMonthDay }

  function AnchorProperty(k: Key, a: Day): Property
    requires Anchoring(k)
  {
    match k
    case KeyByDay => DaysAre([WeekdayNum(Weekday(a), 0)])
    case KeyByMonth => IntsAre([a.month])
    case _ => IntsAre([a.day])
  }

  predicate HasPart(r: Rule, k: Key)
    requires Anchoring(k)
  {
    match k case KeyByDay => |r.byDay| == 1 case KeyByMonth => |ByMonth(r)| == 1 case _ => |ByMonthDay(r)| == 1
  }

  lemma PartKeys(r: Rule, a: Day, k: Key)
    requires Anchoring(k)
    ensures Name(k) in AnchorParts(r, a) <==> HasPart(r, k)
  {
    NamesOfKeys(k, KeyByDay);
    NamesOfKeys(k, KeyByMonth);
    NamesOfKeys(k, KeyByMonthDay);
  }

  lemma PartValues(r: Rule, a: Day, k: Key)
    requires Anchoring(k) && HasPart(r, k)
    ensures Name(k) in AnchorParts(r, a)
    ensures var v := AnchorParts(r, a)[Name(k)];
            1 <= |v| <= 2 && (Letters(v) || Digits(v)) && Parsed(k, v) == Some(AnchorProperty(k, a))
  {
    PartKeys(r, a, k);
    NamesOfKeys(KeyByDay, KeyByMonth);
    NamesOfKeys(KeyByDay, KeyByMonthDay);
    NamesOfKeys(KeyByMonth, KeyByMonthDay);
    WeekdayValue(Weekday(a));
    NumberValue(KeyByMonthDay, a.day);
    NumberValue(KeyByMonth, a.month);
  }

  lemma OnlyAnchorNames(r: Rule, a: Day, name: string) returns (k: Key)
    requires name in AnchorParts(r, a)
    ensures Anchoring(k) && name == Name(k)
  {
    k := if name == Name(KeyByDay) then KeyByDay else if name == Name(KeyByMonth) then KeyByMonth else KeyByMonthDay;
  }

  lemma ShortValueIsClean(name: string, v: string)
    requires KeyOf(name).Some? && v != "" && (Letters(v) || Digits(v))
    ensures Clean(Keyed(name, v))
  {
    if Letters(v) { LettersHave(v); }
    assert !IsSpace(v[|v| - 1]);
  }

  lemma PartIsClean(r: Rule, a: Day, name: string)
    requires name in AnchorParts(r, a)
    ensures Clean(Keyed(name, AnchorParts(r, a)[name])) && PartParses(Keyed(name, AnchorParts(r, a)[name]))
    ensures |AnchorParts(r, a)[name]| <= 2
  {
    var k := OnlyAnchorNames(r, a, name);
    PartKeys(r, a, k);
    PartValues(r, a, k);
    NameReads(k);
    ShortValueIsClean(name, AnchorParts(r, a)[name]);
  }

  lemma PartsAreClean(r: Rule, a: Day)
    ensures CleanValues(AnchorParts(r, a))
  {
    forall name | name in AnchorParts(r, a) ensures Clean(Keyed(name, AnchorParts(r, a)[name])) {
      PartIsClean(r, a, name);
    }
  }

  // ---------- the text of a list of parts ----------

  function TextOf(ps: seq<Keyed>): string { Join(Rendered(ps), ";") }

  predicate EndsWith(s: string, c: char) { s != "" && s[|s| - 1] == c }

  lemma JoinedStart(parts: seq<string>, sep: string)
    requires parts != []
    ensures parts[0] <= Join(parts, sep)
  {
  }

  lemma AppendedEnd(a: string, b: string, c: char)
    requires EndsWith(b, c)
    ensures EndsWith(a + b, c)
  {
  }

  lemma {:induction false} JoinedEnd(parts: seq<string>, sep: string, c: char)
    requires parts != [] && EndsWith(Last(parts), c)
    ensures EndsWith(Join(parts, sep), c)
  {
    if |parts| > 1 {
      JoinedEnd(parts[1..], sep, c);
      AppendedEnd(parts[0] + sep, Join(parts[1..], sep), c);
    }
  }

  lemma {:induction false} JoinedWithout(parts: seq<string>, sep: string, c: char)
    requires NoneHas(parts, c) && c !in sep
    ensures c !in Join(parts, sep)
  {
    if |parts| > 1 {
      JoinedWithout(parts[1..], sep, c);
    }
  }

  lemma NoPrefixBeforeKey(key: string, s: string, prefix: string)
    requires Letters(key) && key + "=" <= s && prefix == "RRULE:"
    ensures !(prefix <= s)
  {
    var n := |key|;
    assert s[n] == (key + "=")[n];
    assert forall i :: 0 <= i < n ==> s[i] == (key + "=")[i] == key[i];
    assert forall i :: 0 <= i < 6 ==> prefix[i] != '=';
    assert n < 6 ==> s[n] != prefix[n];
    assert n >= 6 ==> s[5] != prefix[5];
  }

  lemma RenderedParts(ps: seq<Keyed>)
    requires AllClean(ps)
    ensures NoneHas(Rendered(ps), ';') && NoneHas(Rendered(ps), '\n')
  {
    forall i | 0 <= i < |ps| ensures ';' !in Rendered(ps)[i] && '\n' !in Rendered(ps)[i] {
      CleanText(ps[i]);
    }
  }

  lemma RenderedEnds(ps: seq<Keyed>)
    requires AllClean(ps) && ps != []
    ensures Trimmed(TextOf(ps)) && ps[0].key + "=" <= TextOf(ps)
  {
    var first, last := PartOf(ps[0]), PartOf(ps[|ps| - 1]);
    CleanText(ps[0]);
    CleanText(ps[|ps| - 1]);
    JoinedStart(Rendered(ps), ";");
    JoinedEnd(Rendered(ps), ";", last[|last| - 1]);
    assert ps[0].key + "=" <= first;
    assert TextOf(ps)[0] == first[0];
  }

  lemma RenderedShape(ps: seq<Keyed>)
    requires AllClean(ps) && ps != []
    ensures NoneHas(Rendered(ps), ';')
    ensures Trimmed(TextOf(ps)) && '\n' !in TextOf(ps) && !("RRULE:" <= TextOf(ps))
  {
    RenderedParts(ps);
    RenderedEnds(ps);
    JoinedWithout(Rendered(ps), ";", '\n');
    KeyLetters(ps[0].key);
    NoPrefixBeforeKey(ps[0].key, TextOf(ps), "RRULE:");
  }

  lemma RenderedReads(ps: seq<Keyed>)
    requires AllClean(ps) && ps != []
    ensures RuleParts(TextOf(ps)) == Rendered(ps)
    ensures ParseRule(TextOf(ps)) ==
            match ApplyAll(BLANK, ps) case None => None case Some(r) => if r.freq.None? then None else Some(r)
  {
    RenderedShape(ps);
    RulePartsOf(Rendered(ps));
    ReadsParts(Rendered(ps), TextOf(ps));
    CleanApplyAll(BLANK, ps);
  }

  // ---------- DTSTART never comes in ----------

  lemma UpperConcat(a: string, c: char, b: string)
    ensures ToUpper(a + [c] + b) == ToUpper(a) + [UpperChar(c)] + ToUpper(b)
  {
  }

  lemma DtstartAround(a: string, c: char, b: string)
    requires UpperChar(c) !in DTSTART
    ensures HasDtstart(a + [c] + b) <==> HasDtstart(a) || HasDtstart(b)
  {
    UpperConcat(a, c, b);
    ContainsAround(ToUpper(a), UpperChar(c), ToUpper(b), DTSTART);
  }

  predicate AnyDtstart(parts: seq<string>) {
    exists i :: 0 <= i < |parts| && HasDtstart(parts[i])
  }

  lemma {:induction false} DtstartInJoin(parts: seq<string>)
    requires parts != []
    ensures HasDtstart(Join(parts, ";")) <==> AnyDtstart(parts)
  {
    if |parts| > 1 {
      DtstartInJoin(parts[1..]);
      DtstartAround(parts[0], ';', Join(parts[1..], ";"));
      assert parts[0] + ";" + Join(parts[1..], ";") == parts[0] + [';'] + Join(parts[1..], ";");
      assert forall i :: 1 <= i < |parts| ==> parts[i] == parts[1..][i - 1];
      assert forall i :: 0 <= i < |parts[1..]| ==> parts[1..][i] == parts[i + 1];
    }
  }

  predicate NoDT(s: string) {
    forall i :: 0 <= i < |s| - 1 ==> !(s[i] == 'D' && s[i + 1] == 'T')
  }

  lemma NeedsDT(s: string, t: string)
    requires NoDT(s) && t == DTSTART
    ensures !Contains(s, t)
  {
    assert t[0] == 'D' && t[1] == 'T' && |t| == 7;
    forall i | 0 <= i <= |s| - 7 ensures !OccursAt(s, t, i) {
      assert s[i..i + 7][0] == s[i] && s[i..i + 7][1] == s[i + 1];
    }
  }

  lemma AnchorNameHasNoDT(k: Key)
    requires Anchoring(k)
    ensures NoDT(Name(k))
  {
  }

  lemma AnchorPartHasNone(k: Key, value: string)
    requires Anchoring(k) && |value| <= 2
    ensures !HasDtstart(PartOf(Keyed(Name(k), value)))
  {
    NameReads(k);
    KeyLetters(Name(k));
    LettersHave(Name(k));
    AnchorNameHasNoDT(k);
    NeedsDT(Name(k), DTSTART);
    DtstartAround(Name(k), '=', value);
    assert PartOf(Keyed(Name(k), value)) == Name(k) + ['='] + value;
  }

  lemma {:induction false} OverwrittenPart(ps: seq<Keyed>, repl: map<string, string>, i: nat)
    requires i < |ps|
    ensures var p := OverwriteFirst(ps, repl)[i];
            p == ps[i] || (p.key in repl && p.value == repl[p.key])
  {
    if i > 0 { OverwrittenPart(ps[1..], repl - {ps[0].key}, i - 1); }
  }

  lemma OverwriteAddsNoDtstart(ps: seq<Keyed>, r: Rule, a: Day)
    requires ps != [] && !HasDtstart(TextOf(ps))
    ensures !HasDtstart(TextOf(OverwriteFirst(ps, AnchorParts(r, a))))
  {
    var qs := OverwriteFirst(ps, AnchorParts(r, a));
    DtstartInJoin(Rendered(ps));
    DtstartInJoin(Rendered(qs));
    forall i | 0 <= i < |qs| ensures !HasDtstart(Rendered(qs)[i]) {
      OverwrittenPart(ps, AnchorParts(r, a), i);
      assert !HasDtstart(Rendered(ps)[i]);
      if qs[i] != ps[i] {
        var k := OnlyAnchorNames(r, a, qs[i].key);
        PartIsClean(r, a, qs[i].key);
        AnchorPartHasNone(k, qs[i].value);
      }
    }
  }

  // ---------- accepted rules ----------

  // ps is the list of parts of an accepted rule and r what it denotes.
  predicate Canonical(ps: seq<Keyed>, r: Rule) {
    ps != [] && AllClean(ps) && ApplyAll(BLANK, ps) == Some(r) && Shiftable(r) && !HasDtstart(TextOf(ps))
  }

  function Shifted(ps: seq<Keyed>, r: Rule, a: Day): seq<Keyed> {
    OverwriteFirst(ps, AnchorParts(r, a))
  }

  lemma PropertyOf(ps: seq<Keyed>, r: Rule, k: Key)
    requires ApplyAll(BLANK, ps) == Some(r)
    ensures Get(r, k) == Final(BLANK, ps, k, Name(k))
  {
    NameReads(k);
    LastValueDecides(BLANK, ps, k, Name(k));
  }

  // A part to overwrite is always there.
  lemma AnchorPartsPresent(ps: seq<Keyed>, r: Rule, a: Day)
    requires ApplyAll(BLANK, ps) == Some(r)
    ensures AnchorParts(r, a).Keys <= Keys(ps)
  {
    forall name | name in AnchorParts(r, a) ensures name in Keys(ps) {
      var k := OnlyAnchorNames(r, a, name);
      PartKeys(r, a, k);
      PropertyOf(ps, r, k);
      NoValueNoCount(ps, name);
    }
  }

  lemma RewritesTo(text: string, ps: seq<Keyed>, r: Rule, a: Day)
    requires RuleParts(text) == Rendered(ps) && AllClean(ps) && ApplyAll(BLANK, ps) == Some(r)
    ensures ReplaceRRuleParts(text, AnchorParts(r, a)) == Some(TextOf(Shifted(ps, r, a)))
  {
    var repl := AnchorParts(r, a);
    PartsAreClean(r, a);
    CleanRewrite(ps, repl);
    CleanReadParts(ps);
    RewriteLeaves(Rendered(ps), repl);
    AnchorPartsPresent(ps, r, a);
    var left := RewriteParts(Rendered(ps), repl).value.left;
    assert left.Keys == {};
    assert left == map[];
  }

  // shiftRRuleFromCompletion on text whose parts are ps.
  lemma ShiftOfParts(rule: string, ps: seq<Keyed>, r: Rule, a: Day)
    requires var raw := TrimSpace(rule);
             && '\n' !in raw && !HasDtstart(raw) && ParseRule(raw) == Some(r) && Shiftable(r)
             && RuleParts(raw) == Rendered(ps) && TrimPrefix(raw, "RRULE:") == TextOf(ps)
    requires AllClean(ps) && ApplyAll(BLANK, ps) == Some(r)
    ensures ShiftRRule(rule, a) == Some(TextOf(Shifted(ps, r, a)))
  {
    RewritesTo(TrimSpace(rule), ps, r, a);
    OverwriteNothing(ps);
  }

  lemma PartsOfText(raw: string, r: Rule) returns (ps: seq<Keyed>)
    requires Trimmed(raw) && ParseRule(raw) == Some(r) && !r.until && '\n' !in raw
    ensures AllClean(ps) && ps != [] && RuleParts(raw) == Rendered(ps) && ApplyAll(BLANK, ps) == Some(r)
    ensures TrimPrefix(raw, "RRULE:") == TextOf(ps)
  {
    TrimSpaceFixes(raw);
    var body := TrimPrefix(raw, "RRULE:");
    assert forall c :: c in body ==> c in raw;
    SplitHasNo(body, ';', '\n');
    ps := AppliedAreClean(BLANK, RuleParts(raw));
    CleanApplyAll(BLANK, ps);
    JoinSplit(body, ';');
  }

  lemma SplitHasNo(s: string, sep: char, c: char)
    requires c !in s
    ensures NoneHas(Split(s, sep), sep) && NoneHas(Split(s, sep), c)
  {
    forall i | 0 <= i < |Split(s, sep)| ensures c !in Split(s, sep)[i] && sep !in Split(s, sep)[i] {
      assert Split(s, sep)[i] in Split(s, sep);
    }
  }

  lemma PrefixHidesNothing(body: string)
    ensures HasDtstart("RRULE:" + body) || !HasDtstart(body)
  {
    DtstartAround("RRULE", ':', body);
    assert "RRULE:" + body == "RRULE" + [':'] + body;
  }

  // Everything the shift accepts is a canonical list of parts.
  lemma AcceptedIsCanonical(rule: string, a: Day) returns (ps: seq<Keyed>, r: Rule)
    requires ShiftRRule(rule, a).Some?
    ensures Canonical(ps, r) && ParseRule(rule) == Some(r) && RuleParts(rule) == Rendered(ps)
    ensures forall b: Day :: ShiftRRule(rule, b) == Some(TextOf(Shifted(ps, r, b)))
  {
    var raw := TrimSpace(rule);
    TrimSpaceTrims(rule);
    TrimSpaceFixes(raw);
    r := ParseRule(raw).value;
    ps := PartsOfText(raw, r);
    var body := TrimPrefix(raw, "RRULE:");
    PrefixHidesNothing(body);
    assert raw == body || raw == "RRULE:" + body;
    forall b: Day ensures ShiftRRule(rule, b) == Some(TextOf(Shifted(ps, r, b))) {
      ShiftOfParts(rule, ps, r, b);
    }
  }

  // And every canonical list of parts is accepted.
  lemma CanonicalIsAccepted(ps: seq<Keyed>, r: Rule, a: Day)
    requires Canonical(ps, r)
    ensures ParseRule(TextOf(ps)) == Some(r)
    ensures ShiftRRule(TextOf(ps), a) == Some(TextOf(Shifted(ps, r, a)))
  {
    var text := TextOf(ps);
    RenderedShape(ps);
    RenderedReads(ps);
    TrimSpaceFixes(text);
    ShiftOfParts(text, ps, r, a);
  }

  // ---------- what the shifted rule denotes ----------

  // The anchor's value reaches the rule only when the overwritten part is the one that counts.
  predicate Moves(ps: seq<Keyed>, r: Rule, k: Key)
    requires Anchoring(k)
  {
    HasPart(r, k) && Count(ps, Name(k)) == 1
  }

  lemma ShiftedGet(ps: seq<Keyed>, r: Rule, a: Day, r1: Rule, k: Key)
    requires ApplyAll(BLANK, ps) == Some(r) && ApplyAll(BLANK, Shifted(ps, r, a)) == Some(r1)
    ensures Get(r1, k) == if Anchoring(k) && Moves(ps, r, k) then Some(AnchorProperty(k, a)) else Get(r, k)
  {
    PropertyOf(ps, r, k);
    PropertyOf(Shifted(ps, r, a), r1, k);
    OverwrittenValue(ps, AnchorParts(r, a), Name(k));
    if Name(k) in AnchorParts(r, a) {
      var l := OnlyAnchorNames(r, a, Name(k));
      NamesOfKeys(k, l);
    }
    if Anchoring(k) {
      PartKeys(r, a, k);
      if HasPart(r, k) { PartValues(r, a, k); }
    }
  }

  // The shifted rule: the same frequency and interval, the single day parts moved to the anchor.
  predicate Reanchored(ps: seq<Keyed>, r: Rule, a: Day, r1: Rule) {
    && r1.freq == r.freq && r1.interval == r.interval && r1.weekStart == r.weekStart
    && r1.count == r.count && r1.until == r.until && OnlyMonthLists(r1)
    && r1.byDay == (if Moves(ps, r, KeyByDay) then [WeekdayNum(Weekday(a), 0)] else r.byDay)
    && ByMonth(r1) == (if Moves(ps, r, KeyByMonth) then [a.month] else ByMonth(r))
    && ByMonthDay(r1) == (if Moves(ps, r, KeyByMonthDay) then [a.day] else ByMonthDay(r))
  }

  ghost predicate SameUnanchored(r: Rule, r1: Rule) {
    forall k :: !Anchoring(k) ==> Get(r1, k) == Get(r, k)
  }

  lemma ShiftedUnanchored(ps: seq<Keyed>, r: Rule, a: Day, r1: Rule)
    requires ApplyAll(BLANK, ps) == Some(r) && ApplyAll(BLANK, Shifted(ps, r, a)) == Some(r1)
    ensures SameUnanchored(r, r1)
  {
    forall k | !Anchoring(k) ensures Get(r1, k) == Get(r, k) {
      ShiftedGet(ps, r, a, r1, k);
    }
  }

  lemma UnanchoredScalars(r: Rule, r1: Rule)
    requires SameUnanchored(r, r1)
    ensures r1.freq == r.freq && r1.interval == r.interval && r1.weekStart == r.weekStart
    ensures r1.count == r.count && r1.until == r.until
  {
    assert Get(r1, KeyFreq) == Get(r, KeyFreq) && Get(r1, KeyInterval) == Get(r, KeyInterval);
    assert Get(r1, KeyWkst) == Get(r, KeyWkst);
    assert Get(r1, KeyCount) == Get(r, KeyCount) && Get(r1, KeyUntil) == Get(r, KeyUntil);
  }

  lemma UnanchoredLists(r: Rule, r1: Rule)
    requires SameUnanchored(r, r1) && OnlyMonthLists(r)
    ensures OnlyMonthLists(r1)
  {
    assert Get(r1, KeyBySetPos).None? && Get(r1, KeyByYearDay).None? && Get(r1, KeyByWeekNo).None?;
    assert Get(r1, KeyByHour).None? && Get(r1, KeyByMinute).None? && Get(r1, KeyBySecond).None?;
    assert Get(r1, KeyByEaster).None?;
  }

  lemma ShiftedFields(ps: seq<Keyed>, r: Rule, a: Day, r1: Rule)
    requires ApplyAll(BLANK, ps) == Some(r) && ApplyAll(BLANK, Shifted(ps, r, a)) == Some(r1) && Shiftable(r)
    ensures Reanchored(ps, r, a, r1)
  {
    ShiftedUnanchored(ps, r, a, r1);
    UnanchoredScalars(r, r1);
    UnanchoredLists(r, r1);
    ShiftedGet(ps, r, a, r1, KeyByDay);
    ShiftedGet(ps, r, a, r1, KeyByMonth);
    ShiftedGet(ps, r, a, r1, KeyByMonthDay);
  }

  ghost predicate SameParts(r: Rule, r1: Rule) {
    forall k :: Anchoring(k) ==> (HasPart(r1, k) <==> HasPart(r, k))
  }

  lemma ReanchoredParts(ps: seq<Keyed>, r: Rule, a: Day, r1: Rule)
    requires Reanchored(ps, r, a, r1) && Shiftable(r)
    ensures Shiftable(r1) && SameParts(r, r1)
  {
  }

  lemma SamePartsRewritten(r: Rule, r1: Rule, b: Day)
    requires SameParts(r, r1)
    ensures AnchorParts(r1, b) == AnchorParts(r, b)
  {
    assert HasPart(r1, KeyByDay) <==> HasPart(r, KeyByDay);
    assert HasPart(r1, KeyByMonth) <==> HasPart(r, KeyByMonth);
    assert HasPart(r1, KeyByMonthDay) <==> HasPart(r, KeyByMonthDay);
  }

  lemma ShiftedParses(ps: seq<Keyed>, r: Rule, a: Day)
    requires ApplyAll(BLANK, ps) == Some(r)
    ensures ApplyAll(BLANK, Shifted(ps, r, a)).Some?
  {
    AllParseApplies(BLANK, ps);
    var qs := Shifted(ps, r, a);
    forall i | 0 <= i < |qs| ensures PartParses(qs[i]) {
      OverwrittenPart(ps, AnchorParts(r, a), i);
      if qs[i] != ps[i] { PartIsClean(r, a, qs[i].key); }
    }
    AllParseApplies(BLANK, qs);
  }

  // Shifting is closed: a shifted rule is accepted again, with the same parts to overwrite.
  lemma ShiftedIsCanonical(ps: seq<Keyed>, r: Rule, a: Day) returns (r1: Rule)
    requires Canonical(ps, r)
    ensures Canonical(Shifted(ps, r, a), r1) && Reanchored(ps, r, a, r1)
    ensures SameParts(r, r1)
  {
    ShiftedParses(ps, r, a);
    r1 := ApplyAll(BLANK, Shifted(ps, r, a)).value;
    ShiftedFields(ps, r, a, r1);
    OverwriteAddsNoDtstart(ps, r, a);
    PartsAreClean(r, a);
    CleanRewrite(ps, AnchorParts(r, a));
    ReanchoredParts(ps, r, a, r1);
  }

  // ---------- main results ----------

  lemma ShiftableIsPlain(r: Rule)
    requires Shiftable(r)
    ensures Plain(r)
  {
  }

  // An accepted rule with its parts, and the rule its shifted text reads back as.
  lemma ShiftedText(rule: string, a: Day) returns (ps: seq<Keyed>, r: Rule, r1: Rule)
    requires ShiftRRule(rule, a).Some?
    ensures Canonical(ps, r) && RuleParts(rule) == Rendered(ps) && ParseRule(rule) == Some(r)
    ensures Canonical(Shifted(ps, r, a), r1) && Reanchored(ps, r, a, r1)
    ensures ParseRule(ShiftRRule(rule, a).value) == Some(r1)
  {
    ps, r := AcceptedIsCanonical(rule, a);
    r1 := ShiftedIsCanonical(ps, r, a);
    CanonicalIsAccepted(Shifted(ps, r, a), r1, a);
  }

  // The shifted text reads back as the rule with exactly the single day parts moved.
  lemma ShiftedReadsBack(rule: string, a: Day) returns (ps: seq<Keyed>, r: Rule, r1: Rule)
    requires ShiftRRule(rule, a).Some?
    ensures ReadParts(RuleParts(rule)) == Some(ps) && ParseRule(rule) == Some(r)
    ensures ParseRule(ShiftRRule(rule, a).value) == Some(r1)
    ensures Plain(r1) && Reanchored(ps, r, a, r1)
  {
    ps, r, r1 := ShiftedText(rule, a);
    CleanReadParts(ps);
    ShiftableIsPlain(r1);
  }

  // A key given twice keeps its last value, which must then already suit the anchor.
  predicate RepeatsSuit(ps: seq<Keyed>, r: Rule, a: Day) {
    && (Count(ps, Name(KeyByDay)) >= 2 ==> WeekdayNum(Weekday(a), 0) in r.byDay)
    && (Count(ps, Name(KeyByMonth)) >= 2 ==> a.month in ByMonth(r))
    && (Count(ps, Name(KeyByMonthDay)) >= 2 ==>
          a.day in ByMonthDay(r) || a.day - DaysIn(a.year, a.month) - 1 in ByMonthDay(r))
  }

  lemma ParsedHasOne(k: Key, value: string)
    requires Anchoring(k) && Parsed(k, value).Some?
    ensures match Parsed(k, value).value case DaysAre(ws) => ws != [] case IntsAre(ns) => ns != [] case _ => true
  {
    assert Split(value, ',') != [];
  }

  lemma {:induction false} LastValueParses(ps: seq<Keyed>, k: Key, name: string)
    requires AllParse(ps) && KeyOf(name) == Some(k) && LastValue(ps, name).Some?
    ensures Parsed(k, LastValue(ps, name).value).Some?
  {
    if LastValue(ps[1..], name).Some? {
      assert forall i :: 0 <= i < |ps[1..]| ==> ps[1..][i] == ps[i + 1];
      LastValueParses(ps[1..], k, name);
    } else {
      assert PartParses(ps[0]);
    }
  }

  lemma CountedParts(ps: seq<Keyed>, r: Rule, k: Key)
    requires ApplyAll(BLANK, ps) == Some(r) && Shiftable(r) && Anchoring(k)
    ensures HasPart(r, k) <==> Count(ps, Name(k)) >= 1
  {
    var name := Name(k);
    PropertyOf(ps, r, k);
    NoValueNoCount(ps, name);
    if LastValue(ps, name).Some? {
      AllParseApplies(BLANK, ps);
      NameReads(k);
      LastValueParses(ps, k, name);
      ParsedHasOne(k, LastValue(ps, name).value);
    }
  }

  // With DTSTART on the anchor's day the shifted rule occurs on that day if and only if no
  // repeated key says otherwise; with unique keys it always does.
  lemma AnchorIsAnOccurrence(rule: string, a: Day) returns (ps: seq<Keyed>, r: Rule, r1: Rule)
    requires ShiftRRule(rule, a).Some?
    ensures ReadParts(RuleParts(rule)) == Some(ps) && ParseRule(rule) == Some(r)
    ensures ParseRule(ShiftRRule(rule, a).value) == Some(r1) && Plain(r1)
    ensures Selects(r1, a, a) <==> RepeatsSuit(ps, r, a)
    ensures UniqueKeys(ps) ==> Selects(r1, a, a)
  {
    ps, r, r1 := ShiftedText(rule, a);
    CleanReadParts(ps);
    SuitExactly(ps, r, a, r1);
    if UniqueKeys(ps) { UniqueCounts(ps); }
  }

  lemma WeekdaySuits(ps: seq<Keyed>, r: Rule, a: Day, r1: Rule)
    requires ApplyAll(BLANK, ps) == Some(r) && Shiftable(r) && Reanchored(ps, r, a, r1)
    ensures WeekdayMatches(r1, a, a) <==>
            (Count(ps, Name(KeyByDay)) >= 2 ==> WeekdayNum(Weekday(a), 0) in r.byDay)
  {
    CountedParts(ps, r, KeyByDay);
  }

  lemma MonthSuits(ps: seq<Keyed>, r: Rule, a: Day, r1: Rule)
    requires ApplyAll(BLANK, ps) == Some(r) && Shiftable(r) && Reanchored(ps, r, a, r1)
    ensures MonthMatches(r1, a, a) <==> (Count(ps, Name(KeyByMonth)) >= 2 ==> a.month in ByMonth(r))
  {
    CountedParts(ps, r, KeyByMonth);
  }

  lemma MonthDayBy(r: Rule, a: Day, r1: Rule, n: nat)
    requires |ByMonthDay(r)| == 1 <==> n >= 1
    requires |ByMonthDay(r)| <= 1 && OnlyMonthLists(r)
    requires r1.freq == r.freq && (|r.byDay| == 0 <==> |r1.byDay| == 0)
    requires ByMonthDay(r1) == if n == 1 then [a.day] else ByMonthDay(r)
    ensures MonthDayMatches(r1, a, a) <==>
            (n >= 2 ==> a.day in ByMonthDay(r) || a.day - DaysIn(a.year, a.month) - 1 in ByMonthDay(r))
  {
  }

  lemma MonthDaySuits(ps: seq<Keyed>, r: Rule, a: Day, r1: Rule)
    requires ApplyAll(BLANK, ps) == Some(r) && Shiftable(r) && Reanchored(ps, r, a, r1)
    ensures MonthDayMatches(r1, a, a) <==>
            (Count(ps, Name(KeyByMonthDay)) >= 2 ==>
               a.day in ByMonthDay(r) || a.day - DaysIn(a.year, a.month) - 1 in ByMonthDay(r))
  {
    CountedParts(ps, r, KeyByMonthDay);
    MonthDayBy(r, a, r1, Count(ps, Name(KeyByMonthDay)));
  }

  lemma SelectsStart(r: Rule, a: Day)
    requires Plain(r)
    ensures Selects(r, a, a) <==> WeekdayMatches(r, a, a) && MonthMatches(r, a, a) && MonthDayMatches(r, a, a)
  {
    assert PeriodsBetween(r, a, a) == 0;
  }

  lemma ReanchoredIsPlain(ps: seq<Keyed>, r: Rule, a: Day, r1: Rule)
    requires Shiftable(r) && Reanchored(ps, r, a, r1)
    ensures Plain(r1)
  {
  }

  lemma SuitExactly(ps: seq<Keyed>, r: Rule, a: Day, r1: Rule)
    requires ApplyAll(BLANK, ps) == Some(r) && Shiftable(r) && Reanchored(ps, r, a, r1)
    ensures Plain(r1) && (Selects(r1, a, a) <==> RepeatsSuit(ps, r, a))
  {
    ReanchoredIsPlain(ps, r, a, r1);
    WeekdaySuits(ps, r, a, r1);
    MonthSuits(ps, r, a, r1);
    MonthDaySuits(ps, r, a, r1);
    SelectsStart(r1, a);
  }

  lemma {:induction false} UniqueCounts(ps: seq<Keyed>)
    requires UniqueKeys(ps)
    ensures forall name :: Count(ps, name) <= 1
  {
    if ps != [] {
      UniqueCounts(ps[1..]);
      forall name ensures Count(ps, name) <= 1 {
        NoValueNoCount(ps[1..], name);
      }
    }
  }

  // Shifting by a and then by b is shifting by b: the series depends on its first text and the
  // last completion only.
  lemma LastShiftWins(rule: string, a: Day, b: Day)
    requires ShiftRRule(rule, a).Some?
    ensures ShiftRRule(ShiftRRule(rule, a).value, b) == ShiftRRule(rule, b)
    ensures ShiftRRule(rule, b).Some?
  {
    var ps, r := AcceptedIsCanonical(rule, a);
    var r1 := ShiftedIsCanonical(ps, r, a);
    SamePartsRewritten(r, r1, b);
    CanonicalIsAccepted(Shifted(ps, r, a), r1, b);
    AnchorKeysFixed(r, a, b);
    OverwriteTwice(ps, AnchorParts(r, a), AnchorParts(r, b));
  }

  lemma AnchorKeysFixed(r: Rule, a: Day, b: Day)
    ensures AnchorParts(r, a).Keys == AnchorParts(r, b).Keys
  {
  }

  lemma LastShiftDecidesRRule()
    ensures LastShiftDecides(ShiftRRule)
  {
    forall rule, a, b | ShiftRRule(rule, a).Some?
      ensures ShiftRRule(rule, b).Some? && ShiftRRule(ShiftRRule(rule, a).value, b) == ShiftRRule(rule, b)
    {
      LastShiftWins(rule, a, b);
    }
  }

  // ---------- a repeated key ----------

  function WeeklyTwice(first: int, second: int): seq<Keyed>
    requires 0 <= first < 7 && 0 <= second < 7
  {
    [Keyed(Name(KeyFreq), FREQ_NAMES[1]), Keyed(Name(KeyByDay), WEEKDAY_TOKENS[first]),
     Keyed(Name(KeyByDay), WEEKDAY_TOKENS[second])]
  }

  function WeeklyOn(w: int): Rule { BLANK.(freq := Some(Weekly), byDay := [WeekdayNum(w, 0)]) }

  lemma FreqNamesDiffer()
    ensures Distinct(FREQ_NAMES)
  {
  }

  lemma WeeklyParses(names: seq<string>)
    requires names == FREQ_NAMES
    ensures ParseFreq(names[1]) == Some(Weekly) && Letters(names[1]) && NoDT(names[1]) && ToUpper(names[1]) == names[1]
  {
    FreqNamesDiffer();
    FreqLetters();
    IndexOfDistinct(names, 1);
    LettersHave(names[1]);
  }

  lemma FreqHasNoDtstart(name: string, value: string)
    requires name == Name(KeyFreq) && Letters(value) && NoDT(value)
    ensures !HasDtstart(PartOf(Keyed(name, value)))
  {
    NameReads(KeyFreq);
    KeyLetters(name);
    LettersHave(name);
    LettersHave(value);
    NeedsDT(name, DTSTART);
    NeedsDT(value, DTSTART);
    DtstartAround(name, '=', value);
    assert PartOf(Keyed(name, value)) == name + ['='] + value;
  }

  lemma WeeklyTwiceApplies(first: int, second: int)
    requires 0 <= first < 7 && 0 <= second < 7
    ensures AllClean(WeeklyTwice(first, second))
    ensures ApplyAll(BLANK, WeeklyTwice(first, second)) == Some(WeeklyOn(second))
  {
    var ps := WeeklyTwice(first, second);
    NameReads(KeyFreq);
    NameReads(KeyByDay);
    WeeklyParses(FREQ_NAMES);
    WeekdayValue(first);
    WeekdayValue(second);
    ShortValueIsClean(ps[0].key, ps[0].value);
    ShortValueIsClean(ps[1].key, ps[1].value);
    ShortValueIsClean(ps[2].key, ps[2].value);
    ApplyThree(ps, BLANK.(freq := Some(Weekly)), WeeklyOn(first), WeeklyOn(second));
  }

  lemma {:induction false} ApplyThree(ps: seq<Keyed>, r1: Rule, r2: Rule, r3: Rule)
    requires |ps| == 3 && ApplyKeyed(BLANK, ps[0]) == Some(r1)
    requires ApplyKeyed(r1, ps[1]) == Some(r2) && ApplyKeyed(r2, ps[2]) == Some(r3)
    ensures ApplyAll(BLANK, ps) == Some(r3)
  {
    assert ps[1..][1..] == [ps[2]] && ps[1..][0] == ps[1] && [ps[2]][1..] == [];
    assert ApplyAll(r3, []) == Some(r3);
    assert ApplyAll(r2, [ps[2]]) == Some(r3);
  }

  lemma WeeklyTwiceIsCanonical(first: int, second: int)
    requires 0 <= first < 7 && 0 <= second < 7
    ensures Canonical(WeeklyTwice(first, second), WeeklyOn(second))
  {
    var ps := WeeklyTwice(first, second);
    WeeklyTwiceApplies(first, second);
    WeeklyParses(FREQ_NAMES);
    TokenLetters();
    FreqHasNoDtstart(ps[0].key, ps[0].value);
    AnchorPartHasNone(KeyByDay, ps[1].value);
    AnchorPartHasNone(KeyByDay, ps[2].value);
    DtstartInJoin(Rendered(ps));
  }

  lemma TwoByDays(ps: seq<Keyed>)
    requires |ps| == 3 && ps[0].key != Name(KeyByDay) && ps[1].key == ps[2].key == Name(KeyByDay)
    ensures Count(ps, Name(KeyByDay)) == 2 && Count(ps, Name(KeyByMonth)) <= 1 && Count(ps, Name(KeyByMonthDay)) <= 1
  {
    NamesOfKeys(KeyByDay, KeyByMonth);
    NamesOfKeys(KeyByDay, KeyByMonthDay);
    CountThree(ps, Name(KeyByDay));
    CountThree(ps, Name(KeyByMonth));
    CountThree(ps, Name(KeyByMonthDay));
  }

  lemma CountThree(ps: seq<Keyed>, name: string)
    requires |ps| == 3
    ensures Count(ps, name) == (if ps[0].key == name then 1 else 0) + (if ps[1].key == name then 1 else 0)
                               + if ps[2].key == name then 1 else 0
  {
    assert ps[1..][1..] == [ps[2]] && ps[1..][0] == ps[1] && [ps[2]][1..] == [];
    assert Count([ps[2]], name) == if ps[2].key == name then 1 else 0;
  }

  lemma WeeklyTwiceIsAccepted(first: int, second: int, a: Day) returns (rule: string)
    requires 0 <= first < 7 && 0 <= second < 7
    ensures ShiftRRule(rule, a).Some? && ParseRule(rule) == Some(WeeklyOn(second))
    ensures ReadParts(RuleParts(rule)) == Some(WeeklyTwice(first, second))
  {
    var ps := WeeklyTwice(first, second);
    WeeklyTwiceIsCanonical(first, second);
    rule := TextOf(ps);
    CanonicalIsAccepted(ps, WeeklyOn(second), a);
    RenderedReads(ps);
    CleanReadParts(ps);
  }

  lemma WeeklyTwiceSuits(first: int, second: int, a: Day)
    requires 0 <= first < 7 && 0 <= second < 7
    ensures RepeatsSuit(WeeklyTwice(first, second), WeeklyOn(second), a) <==> Weekday(a) == second
  {
    NamesOfKeys(KeyFreq, KeyByDay);
    TwoByDays(WeeklyTwice(first, second));
  }

  // A weekly rule with two BYDAY parts is accepted, and shifted it misses every anchor but those
  // on its last weekday: the shift overwrites the first BYDAY and the last one counts.
  lemma RepeatedKeyMissesAnchor(first: int, second: int, a: Day) returns (rule: string, r1: Rule)
    requires 0 <= first < 7 && 0 <= second < 7
    ensures ShiftRRule(rule, a).Some? && ReadParts(RuleParts(rule)) == Some(WeeklyTwice(first, second))
    ensures ParseRule(ShiftRRule(rule, a).value) == Some(r1) && Plain(r1)
    ensures Selects(r1, a, a) <==> Weekday(a) == second
  {
    rule := WeeklyTwiceIsAccepted(first, second, a);
    var qs, r;
    qs, r, r1 := AnchorIsAnOccurrence(rule, a);
    WeeklyTwiceSuits(first, second, a);
  }
}
