/** The rule a list of keyed parts denotes: each property is the last value given for its key. */
module RuleFields {
  import opened Text
  import opened RRule
  import opened RuleRewrite

  datatype Property =
    | FreqIs(freq: Freq)
    | NumberIs(n: int)
    | UntilIsSet
    | DaysAre(days: seq<WeekdayNum>)
    | IntsAre(ints: seq<int>)

  function Parsed(key: Key, value: string): Option<Property> {
    match key
    case KeyFreq => (match ParseFreq(value) case None => None case Some(f) => Some(FreqIs(f)))
    case KeyInterval => (match Atoi(value) case None => None case Some(n) => Some(NumberIs(n)))
    case KeyCount => (match Atoi(value) case None => None case Some(n) => Some(NumberIs(n)))
    case KeyUntil => Some(UntilIsSet)
    case KeyWkst => (match WeekdayOf(value) case None => None case Some(w) => Some(NumberIs(w)))
    case KeyByDay =>
      (match ParseWeekdays(Split(value, ',')) case None => None case Some(ws) => Some(DaysAre(ws)))
    case _ =>
      (match ParseInts(Split(value, ',')) case None => None case Some(ns) => Some(IntsAre(ns)))
  }

  function Get(r: Rule, key: Key): Option<Property> {
    match key
    case KeyFreq => (match r.freq case None => None case Some(f) => Some(FreqIs(f)))
    case KeyInterval => Some(NumberIs(r.interval))
    case KeyCount => Some(NumberIs(r.count))
    case KeyUntil => if r.until then Some(UntilIsSet) else None
    case KeyWkst => Some(NumberIs(r.weekStart))
    case KeyByDay => Some(DaysAre(r.byDay))
    case _ => if key in r.lists then Some(IntsAre(r.lists[key])) else None
  }

  lemma SetSucceeds(r: Rule, key: Key, value: string)
    ensures SetProperty(r, key, value).Some? <==> Parsed(key, value).Some?
  {
  }

  lemma SetIsRead(r: Rule, key: Key, value: string)
    requires SetProperty(r, key, value).Some?
    ensures Get(SetProperty(r, key, value).value, key) == Parsed(key, value)
  {
  }

  predicate OnlyChanges(r: Rule, r1: Rule, key: Key) {
    && (key == KeyFreq || r1.freq == r.freq) && (key == KeyInterval || r1.interval == r.interval)
    && (key == KeyCount || r1.count == r.count) && (key == KeyUntil || r1.until == r.until)
    && (key == KeyWkst || r1.weekStart == r.weekStart) && (key == KeyByDay || r1.byDay == r.byDay)
    && r1.lists - {key} == r.lists - {key}
  }

  lemma SetChangesOne(r: Rule, key: Key, value: string)
    requires SetProperty(r, key, value).Some?
    ensures OnlyChanges(r, SetProperty(r, key, value).value, key)
  {
  }

  lemma OthersRead(r: Rule, r1: Rule, key: Key, k: Key)
    requires OnlyChanges(r, r1, key) && k != key
    ensures Get(r1, k) == Get(r, k)
  {
    assert k in r.lists <==> k in r.lists - {key};
    assert k in r1.lists <==> k in r1.lists - {key};
    assert k in r.lists ==> (r.lists - {key})[k] == r.lists[k] && (r1.lists - {key})[k] == r1.lists[k];
  }

  lemma SetThenGet(r: Rule, key: Key, value: string, k: Key)
    requires SetProperty(r, key, value).Some?
    ensures Get(SetProperty(r, key, value).value, k) == if k == key then Parsed(key, value) else Get(r, k)
  {
    if k == key {
      SetIsRead(r, key, value);
    } else {
      SetChangesOne(r, key, value);
      OthersRead(r, SetProperty(r, key, value).value, key, k);
    }
  }

  // ---------- keys ----------

  function Rank(k: Key): nat {
    match k
    case KeyFreq => 0
    case KeyByDay => 1
    case KeyByMonth => 2
    case KeyByMonthDay => 3
    case KeyInterval => 4
    case KeyCount => 5
    case KeyUntil => 6
    case KeyWkst => 7
    case KeyBySetPos => 8
    case KeyByYearDay => 9
    case KeyByWeekNo => 10
    case KeyByHour => 11
    case KeyByMinute => 12
    case KeyBySecond => 13
    case KeyByEaster => 14
  }

  lemma KeysDiffer(i: nat)
    requires i < 15
    ensures Rank(KEYS[i]) == i
  {
  }

  lemma OneNamePerKey(a: string, b: string)
    requires KeyOf(a).Some? && KeyOf(a) == KeyOf(b)
    ensures a == b
  {
    KeysDiffer(IndexOf(KEY_NAMES, a).value);
    KeysDiffer(IndexOf(KEY_NAMES, b).value);
  }

  predicate Letters(s: string) {
    s != "" && forall i :: 0 <= i < |s| ==> 'A' <= s[i] <= 'Z'
  }

  lemma KeyNameLetters(i: nat)
    requires i < 15
    ensures Letters(KEY_NAMES[i])
  {
  }

  lemma KeyLetters(s: string)
    requires KeyOf(s).Some?
    ensures Letters(s)
  {
    KeyNameLetters(IndexOf(KEY_NAMES, s).value);
  }

  // ---------- lists of parts ----------

  function ApplyKeyed(r: Rule, p: Keyed): Option<Rule> {
    match KeyOf(p.key) case None => None case Some(k) => SetProperty(r, k, p.value)
  }

  function ApplyAll(r: Rule, ps: seq<Keyed>): Option<Rule>
    decreases |ps|
  {
    if ps == [] then Some(r)
    else match ApplyKeyed(r, ps[0]) case None => None case Some(r1) => ApplyAll(r1, ps[1..])
  }

  predicate PartParses(p: Keyed) {
    KeyOf(p.key).Some? && Parsed(KeyOf(p.key).value, p.value).Some?
  }

  predicate AllParse(ps: seq<Keyed>) {
    forall i :: 0 <= i < |ps| ==> PartParses(ps[i])
  }

  function LastValue(ps: seq<Keyed>, name: string): Option<string> {
    if ps == [] then None
    else
      var later := LastValue(ps[1..], name);
      if later.Some? then later else if ps[0].key == name then Some(ps[0].value) else None
  }

  function Count(ps: seq<Keyed>, name: string): nat {
    if ps == [] then 0 else (if ps[0].key == name then 1 else 0) + Count(ps[1..], name)
  }

  // What one list of parts makes of property k, starting from r.
  function Final(r: Rule, ps: seq<Keyed>, k: Key, name: string): Option<Property> {
    match LastValue(ps, name) case None => Get(r, k) case Some(v) => Parsed(k, v)
  }

  lemma {:induction false} AllParseApplies(r: Rule, ps: seq<Keyed>)
    ensures ApplyAll(r, ps).Some? <==> AllParse(ps)
    decreases |ps|
  {
    if ps != [] {
      if PartParses(ps[0]) {
        SetSucceeds(r, KeyOf(ps[0].key).value, ps[0].value);
        AllParseApplies(ApplyKeyed(r, ps[0]).value, ps[1..]);
        assert forall i :: 1 <= i < |ps| ==> ps[i] == ps[1..][i - 1];
      } else if KeyOf(ps[0].key).Some? {
        SetSucceeds(r, KeyOf(ps[0].key).value, ps[0].value);
      }
    }
  }

  lemma PartDecides(r: Rule, p: Keyed, k: Key, name: string)
    requires KeyOf(name) == Some(k) && ApplyKeyed(r, p).Some?
    ensures Get(ApplyKeyed(r, p).value, k) == if p.key == name then Parsed(k, p.value) else Get(r, k)
  {
    var key := KeyOf(p.key).value;
    SetThenGet(r, key, p.value, k);
    if key == k { OneNamePerKey(p.key, name); }
  }

  lemma {:induction false} LastValueDecides(r: Rule, ps: seq<Keyed>, k: Key, name: string)
    requires KeyOf(name) == Some(k) && ApplyAll(r, ps).Some?
    ensures Get(ApplyAll(r, ps).value, k) == Final(r, ps, k, name)
    decreases |ps|
  {
    if ps != [] {
      PartDecides(r, ps[0], k, name);
      LastValueDecides(ApplyKeyed(r, ps[0]).value, ps[1..], k, name);
    }
  }

  lemma {:induction false} NoValueNoCount(ps: seq<Keyed>, name: string)
    ensures LastValue(ps, name).Some? <==> Count(ps, name) >= 1
    ensures Count(ps, name) >= 1 <==> name in Keys(ps)
  {
    if ps != [] {
      NoValueNoCount(ps[1..], name);
      KeysCons(ps);
    }
  }

  // Overwriting the first part of a key changes its property only when that part is the last.
  lemma {:induction false} OverwrittenValue(ps: seq<Keyed>, repl: map<string, string>, name: string)
    ensures LastValue(OverwriteFirst(ps, repl), name) ==
            if name in repl && Count(ps, name) == 1 then Some(repl[name]) else LastValue(ps, name)
    ensures Count(OverwriteFirst(ps, repl), name) == Count(ps, name)
  {
    if ps != [] {
      var rest := repl - {ps[0].key};
      OverwrittenValue(ps[1..], rest, name);
      NoValueNoCount(ps[1..], name);
      assert OverwriteFirst(ps, repl)[1..] == OverwriteFirst(ps[1..], rest);
    }
  }

  lemma {:induction false} OverwriteTwice(ps: seq<Keyed>, a: map<string, string>, b: map<string, string>)
    requires a.Keys == b.Keys
    ensures OverwriteFirst(OverwriteFirst(ps, a), b) == OverwriteFirst(ps, b)
  {
    if ps != [] {
      OverwriteTwice(ps[1..], a - {ps[0].key}, b - {ps[0].key});
      assert OverwriteFirst(ps, a)[1..] == OverwriteFirst(ps[1..], a - {ps[0].key});
    }
  }

  lemma {:induction false} OverwriteNothing(ps: seq<Keyed>)
    ensures OverwriteFirst(ps, map[]) == ps
  {
    if ps != [] {
      var none: map<string, string> := map[];
      assert none - {ps[0].key} == none;
      OverwriteNothing(ps[1..]);
    }
  }

  // ---------- parts as text ----------

  function PartOf(p: Keyed): string { p.key + "=" + p.value }

  predicate Clean(p: Keyed) {
    && KeyOf(p.key).Some?
    && p.value != "" && !IsSpace(p.value[|p.value| - 1])
    && '=' !in p.value && ';' !in p.value && '\n' !in p.value
  }

  predicate AllClean(ps: seq<Keyed>) {
    forall i :: 0 <= i < |ps| ==> Clean(ps[i])
  }

  function Rendered(ps: seq<Keyed>): (parts: seq<string>)
    ensures |parts| == |ps|
    ensures forall i :: 0 <= i < |ps| ==> parts[i] == PartOf(ps[i])
  {
    if ps == [] then [] else [PartOf(ps[0])] + Rendered(ps[1..])
  }

  lemma LettersHave(s: string)
    requires Letters(s)
    ensures Trimmed(s) && ToUpper(s) == s
    ensures '=' !in s && ';' !in s && '\n' !in s && ':' !in s
  {
  }

  lemma CleanText(p: Keyed)
    requires Clean(p)
    ensures Trimmed(PartOf(p)) && ';' !in PartOf(p) && '\n' !in PartOf(p) && PartOf(p)[0] == p.key[0]
  {
    KeyLetters(p.key);
    LettersHave(p.key);
    var s := PartOf(p);
    assert s[0] == p.key[0] && s[|s| - 1] == p.value[|p.value| - 1];
  }

  lemma CleanReads(p: Keyed)
    requires Clean(p)
    ensures ReadPart(PartOf(p)) == Some(p) && TrimSpace(PartOf(p)) == PartOf(p)
  {
    KeyLetters(p.key);
    LettersHave(p.key);
    CleanText(p);
    TrimSpaceFixes(PartOf(p));
    TrimSpaceFixes(p.key);
    CutAtFirst(p.key, p.value, '=');
    var s := PartOf(p);
    assert s == p.key + ['='] + p.value && s[..|p.key|] == p.key && s[|p.key| + 1..] == p.value;
  }

  lemma PairSplits(key: string, value: string)
    requires '=' !in key && '=' !in value
    ensures Split(key + "=" + value, '=') == [key, value]
  {
    SplitFirst(key, value, '=');
    SplitWhole(value, '=');
    assert key + "=" + value == key + ['='] + value;
    assert [key] + [value] == [key, value];
  }

  lemma CleanApplies(r: Rule, p: Keyed)
    requires Clean(p)
    ensures ApplyPart(r, PartOf(p)) == ApplyKeyed(r, p)
  {
    KeyLetters(p.key);
    LettersHave(p.key);
    PairSplits(p.key, p.value);
  }

  lemma {:induction false} CleanApplyAll(r: Rule, ps: seq<Keyed>)
    requires AllClean(ps)
    ensures ApplyParts(r, Rendered(ps)) == ApplyAll(r, ps)
    decreases |ps|
  {
    if ps != [] {
      CleanApplies(r, ps[0]);
      assert Rendered(ps)[1..] == Rendered(ps[1..]);
      if ApplyKeyed(r, ps[0]).Some? { CleanApplyAll(ApplyKeyed(r, ps[0]).value, ps[1..]); }
    }
  }

  // A value every property but UNTIL accepts ends in no white space.
  lemma ParsedEnds(key: Key, value: string)
    requires key != KeyUntil && Parsed(key, value).Some? && value != ""
    ensures !IsSpace(value[|value| - 1])
  {
    match key
    case KeyFreq => NamesEnd(FREQ_NAMES, value);
    case KeyWkst => NamesEnd(WEEKDAY_TOKENS, value);
    case KeyInterval => AtoiHasDigits(value);
    case KeyCount => AtoiHasDigits(value);
    case KeyByDay => WeekdaysEnd(value);
    case _ => IntsEnd(value);
  }

  lemma NamesEnd(names: seq<string>, value: string)
    requires names == FREQ_NAMES || names == WEEKDAY_TOKENS
    requires IndexOf(names, value).Some? && value != ""
    ensures !IsSpace(value[|value| - 1])
  {
    FreqLetters();
    TokenLetters();
  }

  lemma FreqLetters()
    ensures forall i :: 0 <= i < |FREQ_NAMES| ==> Letters(FREQ_NAMES[i])
  {
  }

  lemma TokenLetters()
    ensures forall i :: 0 <= i < |WEEKDAY_TOKENS| ==> Letters(WEEKDAY_TOKENS[i]) && |WEEKDAY_TOKENS[i]| == 2
  {
  }

  function Last(ps: seq<string>): string
    requires ps != []
  {
    ps[|ps| - 1]
  }

  predicate EndsLike(last: string, s: string, sep: char)
    requires s != ""
  {
    if s[|s| - 1] == sep then last == "" else last != "" && last[|last| - 1] == s[|s| - 1]
  }

  lemma LastOfStep(c: char, s: string, rest: seq<string>, sep: char)
    requires rest != [] && s != "" && EndsLike(Last(rest), s, sep)
    requires |rest| == 1 ==> rest[0] == s && s[|s| - 1] != sep
    ensures EndsLike(Last(SplitStep(c, rest, sep)), [c] + s, sep)
  {
  }

  lemma {:induction false} LastPiece(s: string, sep: char)
    requires s != ""
    ensures EndsLike(Last(Split(s, sep)), s, sep)
  {
    var rest := Split(s[1..], sep);
    assert [s[0]] + s[1..] == s;
    SplitCons(s[0], s[1..], sep);
    if |s| == 1 {
      assert rest == [""];
    } else {
      LastPiece(s[1..], sep);
      JoinSplit(s[1..], sep);
      LastOfStep(s[0], s[1..], rest, sep);
    }
  }

  lemma {:induction false} IntsLast(tokens: seq<string>)
    requires tokens != [] && ParseInts(tokens).Some?
    ensures Atoi(Last(tokens)).Some?
  {
    if |tokens| > 1 { IntsLast(tokens[1..]); }
  }

  lemma {:induction false} WeekdaysLast(tokens: seq<string>)
    requires tokens != [] && ParseWeekdays(tokens).Some?
    ensures ParseWeekday(Last(tokens)).Some?
  {
    if |tokens| > 1 { WeekdaysLast(tokens[1..]); }
  }

  lemma IntsEnd(value: string)
    requires value != "" && ParseInts(Split(value, ',')).Some?
    ensures !IsSpace(value[|value| - 1])
  {
    LastPiece(value, ',');
    var ps := Split(value, ',');
    IntsLast(ps);
    AtoiHasDigits(Last(ps));
  }

  lemma WeekdayEnds(t: string)
    requires ParseWeekday(t).Some?
    ensures t != "" && !IsSpace(t[|t| - 1])
  {
    TokenLetters();
    assert t[|t| - 1] == t[|t| - 2..][1];
  }

  lemma WeekdaysEnd(value: string)
    requires value != "" && ParseWeekdays(Split(value, ',')).Some?
    ensures !IsSpace(value[|value| - 1])
  {
    LastPiece(value, ',');
    var ps := Split(value, ',');
    WeekdaysLast(ps);
    WeekdayEnds(Last(ps));
  }

  lemma UntilKept(r: Rule, part: string)
    requires r.until && ApplyPart(r, part).Some?
    ensures ApplyPart(r, part).value.until
  {
    var kv := Split(part, '=');
    SetThenGet(r, KeyOf(kv[0]).value, kv[1], KeyUntil);
  }

  lemma {:induction false} UntilStays(r: Rule, parts: seq<string>)
    requires r.until && ApplyParts(r, parts).Some?
    ensures ApplyParts(r, parts).value.until
    decreases |parts|
  {
    if parts != [] {
      UntilKept(r, parts[0]);
      UntilStays(ApplyPart(r, parts[0]).value, parts[1..]);
    }
  }

  lemma PartAsKeyed(part: string) returns (p: Keyed)
    requires |Split(part, '=')| == 2
    ensures part == PartOf(p) && p == Keyed(Split(part, '=')[0], Split(part, '=')[1])
  {
    var kv := Split(part, '=');
    JoinSplit(part, '=');
    p := Keyed(kv[0], kv[1]);
    assert Join(kv[1..], ['=']) == kv[1];
  }

  lemma SetNoEnd(r: Rule, key: Key, value: string)
    requires SetProperty(r, key, value).Some? && !SetProperty(r, key, value).value.until
    ensures key != KeyUntil && Parsed(key, value).Some?
  {
    SetThenGet(r, key, value, KeyUntil);
    SetSucceeds(r, key, value);
  }

  // A part read without setting an end is a clean one.
  lemma AppliedIsClean(r: Rule, part: string) returns (p: Keyed)
    requires ApplyPart(r, part).Some? && !ApplyPart(r, part).value.until
    requires ';' !in part && '\n' !in part
    ensures Clean(p) && part == PartOf(p)
  {
    p := PartAsKeyed(part);
    assert p.value in Split(part, '=');
    SetNoEnd(r, KeyOf(p.key).value, p.value);
    ParsedEnds(KeyOf(p.key).value, p.value);
  }

  lemma {:induction false} AppliedAreClean(r: Rule, parts: seq<string>) returns (ps: seq<Keyed>)
    requires ApplyParts(r, parts).Some? && !ApplyParts(r, parts).value.until
    requires NoneHas(parts, ';') && NoneHas(parts, '\n')
    ensures AllClean(ps) && parts == Rendered(ps)
    decreases |parts|
  {
    ps := [];
    if parts != [] {
      var r1 := ApplyPart(r, parts[0]).value;
      if r1.until { UntilStays(r1, parts[1..]); }
      var p := AppliedIsClean(r, parts[0]);
      var rest := AppliedAreClean(r1, parts[1..]);
      ps := [p] + rest;
      assert ps[1..] == rest;
    }
  }

  lemma ReadPartsCons(part: string, parts: seq<string>, p: Keyed, ps: seq<Keyed>)
    requires ReadPart(part) == Some(p) && ReadParts(parts) == Some(ps)
    ensures ReadParts([part] + parts) == Some([p] + ps)
  {
    assert ([part] + parts)[1..] == parts;
  }

  lemma {:induction false} CleanReadParts(ps: seq<Keyed>)
    requires AllClean(ps)
    ensures ReadParts(Rendered(ps)) == Some(ps)
  {
    if ps != [] {
      CleanReads(ps[0]);
      CleanReadParts(ps[1..]);
      ReadPartsCons(PartOf(ps[0]), Rendered(ps[1..]), ps[0], ps[1..]);
      assert [ps[0]] + ps[1..] == ps;
    }
  }

  predicate CleanValues(repl: map<string, string>) {
    forall k :: k in repl ==> KeyOf(k).Some? ==> Clean(Keyed(k, repl[k]))
  }

  // The rewriting of clean parts is the overwriting of what they read as.
  lemma {:induction false} CleanRewrite(ps: seq<Keyed>, repl: map<string, string>)
    requires AllClean(ps) && CleanValues(repl)
    ensures RewriteParts(Rendered(ps), repl).Some?
    ensures RewriteParts(Rendered(ps), repl).value.out == Rendered(OverwriteFirst(ps, repl))
    ensures AllClean(OverwriteFirst(ps, repl))
  {
    if ps != [] {
      CleanReads(ps[0]);
      var rest := repl - {ps[0].key};
      assert Rendered(ps)[1..] == Rendered(ps[1..]);
      CleanRewrite(ps[1..], rest);
      var p := OverwriteFirst(ps, repl)[0];
      assert OverwriteFirst(ps, repl)[1..] == OverwriteFirst(ps[1..], rest);
      assert Written(ps[0], Rendered(ps)[0], repl) == PartOf(p);
    }
  }
}
