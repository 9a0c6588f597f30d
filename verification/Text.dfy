/** The string operations of Go's strings and strconv packages that the recurrence code is
    written with, and the round trips between them. */
module Text {
  datatype Option<+T> = None | Some(value: T)

  // ---------- white space ----------

  // unicode.IsSpace
  predicate IsSpace(c: char) {
    || '\t' <= c <= '\r' || c == ' ' || c == '\U{85}' || c == '\U{A0}' || c == '\U{1680}'
    || '\U{2000}' <= c <= '\U{200A}' || c == '\U{2028}' || c == '\U{2029}'
    || c == '\U{202F}' || c == '\U{205F}' || c == '\U{3000}'
  }

  predicate NoSpace(s: string) {
    forall i :: 0 <= i < |s| ==> !IsSpace(s[i])
  }

  function TrimLeft(s: string): (r: string)
    ensures |r| <= |s|
    ensures r != "" ==> !IsSpace(r[0])
  {
    if s != "" && IsSpace(s[0]) then TrimLeft(s[1..]) else s
  }

  function TrimRight(s: string): (r: string)
    ensures |r| <= |s|
    ensures r != "" ==> !IsSpace(r[|r| - 1]) && r[0] == s[0]
  {
    if s != "" && IsSpace(s[|s| - 1]) then TrimRight(s[..|s| - 1]) else s
  }

  // strings.TrimSpace
  function TrimSpace(s: string): string {
    TrimRight(TrimLeft(s))
  }

  predicate Trimmed(s: string) {
    s != "" ==> !IsSpace(s[0]) && !IsSpace(s[|s| - 1])
  }

  lemma TrimSpaceFixes(s: string)
    requires Trimmed(s)
    ensures TrimSpace(s) == s
  {
  }

  lemma TrimSpaceTrims(s: string)
    ensures Trimmed(TrimSpace(s))
  {
  }

  lemma {:induction false} TrimLeftKeeps(s: string)
    ensures forall c :: c in TrimLeft(s) ==> c in s
  {
    if s != "" && IsSpace(s[0]) { TrimLeftKeeps(s[1..]); }
  }

  lemma {:induction false} TrimRightKeeps(s: string)
    ensures forall c :: c in TrimRight(s) ==> c in s
  {
    if s != "" && IsSpace(s[|s| - 1]) { TrimRightKeeps(s[..|s| - 1]); }
  }

  lemma TrimSpaceKeeps(s: string)
    ensures forall c :: c in TrimSpace(s) ==> c in s
  {
    TrimLeftKeeps(s);
    TrimRightKeeps(TrimLeft(s));
  }

  // Nothing but white space.
  predicate Blank(s: string) { forall i :: 0 <= i < |s| ==> IsSpace(s[i]) }

  lemma {:induction false} BlankTrims(s: string)
    ensures TrimSpace(s) == "" <==> Blank(s)
    decreases |s|
  {
    if s != "" && IsSpace(s[0]) {
      assert TrimLeft(s) == TrimLeft(s[1..]);
      BlankTrims(s[1..]);
      assert forall i :: 1 <= i < |s| ==> s[i] == s[1..][i - 1];
    } else if s != "" {
      assert TrimLeft(s) == s;
      FirstStays(s);
    }
  }

  lemma {:induction false} FirstStays(s: string)
    requires s != "" && !IsSpace(s[0])
    ensures TrimRight(s) != ""
    decreases |s|
  {
    if IsSpace(s[|s| - 1]) { FirstStays(s[..|s| - 1]); }
  }

  function WordLength(s: string): (n: nat)
    ensures n <= |s|
    ensures NoSpace(s[..n])
    ensures n < |s| ==> IsSpace(s[n])
  {
    if s == "" || IsSpace(s[0]) then 0 else
      var n := 1 + WordLength(s[1..]);
      assert forall i :: 1 <= i < n ==> s[..n][i] == s[1..][..n - 1][i - 1];
      n
  }

  // strings.Fields
  function Fields(s: string): (fs: seq<string>)
    ensures AllWords(fs)
    decreases |s|
  {
    var t := TrimLeft(s);
    if t == "" then []
    else var n := WordLength(t); [t[..n]] + Fields(t[n..])
  }

  lemma {:induction false} WordLengthBefore(w: string, rest: string)
    requires NoSpace(w)
    requires rest != "" ==> IsSpace(rest[0])
    ensures WordLength(w + rest) == |w|
  {
    if w == "" {
      assert w + rest == rest;
    } else {
      assert (w + rest)[1..] == w[1..] + rest;
      WordLengthBefore(w[1..], rest);
    }
  }

  lemma FieldsWord(w: string, rest: string)
    requires w != "" && NoSpace(w)
    requires rest != "" ==> IsSpace(rest[0])
    ensures Fields(w + rest) == [w] + Fields(rest)
  {
    WordLengthBefore(w, rest);
    assert (w + rest)[..|w|] == w && (w + rest)[|w|..] == rest;
  }

  lemma FieldsCons(w: string, s: string)
    requires IsWord(w)
    ensures Fields(w + " " + s) == [w] + Fields(s)
  {
    assert (" " + s)[1..] == s;
    assert w + " " + s == w + (" " + s);
    FieldsWord(w, " " + s);
  }

  predicate IsWord(w: string) { w != "" && NoSpace(w) }

  predicate AllWords(fs: seq<string>) {
    forall i :: 0 <= i < |fs| ==> IsWord(fs[i])
  }

  // ---------- Split and Join ----------

  // strings.Split by a one-character separator
  function Split(s: string, sep: char): (ps: seq<string>)
    ensures |ps| >= 1
    ensures forall p :: p in ps ==> sep !in p
    ensures forall p, c :: p in ps && c in p ==> c in s
  {
    if s == "" then [""]
    else
      var rest := Split(s[1..], sep);
      if s[0] == sep then [""] + rest else [[s[0]] + rest[0]] + rest[1..]
  }

  // strings.Join
  function Join(ps: seq<string>, sep: string): string {
    if |ps| == 0 then "" else if |ps| == 1 then ps[0] else ps[0] + sep + Join(ps[1..], sep)
  }

  lemma {:induction false} SplitWhole(s: string, sep: char)
    requires sep !in s
    ensures Split(s, sep) == [s]
  {
    if s != "" {
      SplitWhole(s[1..], sep);
      assert [s[0]] + s[1..] == s;
    }
  }

  // How the first character of a text changes the split of the rest.
  function SplitStep(c: char, rest: seq<string>, sep: char): seq<string>
    requires |rest| >= 1
  {
    if c == sep then [""] + rest else [[c] + rest[0]] + rest[1..]
  }

  lemma SplitCons(c: char, s: string, sep: char)
    ensures Split([c] + s, sep) == SplitStep(c, Split(s, sep), sep)
  {
    assert ([c] + s)[1..] == s;
  }

  lemma SplitStepAppends(c: char, p: seq<string>, q: seq<string>, sep: char)
    requires |p| >= 1
    ensures SplitStep(c, p + q, sep) == SplitStep(c, p, sep) + q
  {
  }

  lemma {:induction false} SplitAround(a: string, b: string, sep: char)
    ensures Split(a + [sep] + b, sep) == Split(a, sep) + Split(b, sep)
  {
    if a == "" {
      assert a + [sep] + b == [sep] + b;
      SplitCons(sep, b, sep);
    } else {
      var c, t := a[0], a[1..];
      SplitAround(t, b, sep);
      assert a == [c] + t && a + [sep] + b == [c] + (t + [sep] + b);
      SplitCons(c, t, sep);
      SplitCons(c, t + [sep] + b, sep);
      SplitStepAppends(c, Split(t, sep), Split(b, sep), sep);
    }
  }

  lemma SplitFirst(a: string, b: string, sep: char)
    requires sep !in a
    ensures Split(a + [sep] + b, sep) == [a] + Split(b, sep)
  {
    SplitWhole(a, sep);
    SplitAround(a, b, sep);
  }

  lemma {:induction false} SplitJoin(ps: seq<string>, sep: char)
    requires |ps| >= 1
    requires forall p :: p in ps ==> sep !in p
    ensures Split(Join(ps, [sep]), sep) == ps
  {
    if |ps| == 1 {
      SplitWhole(ps[0], sep);
    } else {
      SplitJoin(ps[1..], sep);
      SplitFirst(ps[0], Join(ps[1..], [sep]), sep);
      assert [ps[0]] + ps[1..] == ps;
    }
  }

  lemma {:induction false} JoinSplit(s: string, sep: char)
    ensures Join(Split(s, sep), [sep]) == s
  {
    if s != "" {
      JoinSplit(s[1..], sep);
      var rest := Split(s[1..], sep);
      if s[0] == sep {
        assert ([""] + rest)[1..] == rest;
      } else {
        assert ([[s[0]] + rest[0]] + rest[1..])[1..] == rest[1..];
      }
    }
  }

  lemma {:induction false} FieldsOfJoin(fs: seq<string>)
    requires AllWords(fs)
    ensures Fields(Join(fs, " ")) == fs
  {
    if |fs| == 1 {
      assert fs[0] + "" == fs[0] && fs == [fs[0]];
      FieldsWord(fs[0], "");
    } else if |fs| > 1 {
      FieldsOfJoin(fs[1..]);
      FieldsCons(fs[0], Join(fs[1..], " "));
    }
  }

  // Where strings.Cut splits: the first separator, or the end.
  function CutAt(s: string, sep: char): (n: nat)
    ensures n <= |s|
    ensures sep !in s[..n]
    ensures n < |s| ==> s[n] == sep
  {
    if s == "" || s[0] == sep then 0
    else
      var n := 1 + CutAt(s[1..], sep);
      assert s[..n] == [s[0]] + s[1..][..n - 1];
      n
  }

  lemma {:induction false} CutAtFirst(a: string, b: string, sep: char)
    requires sep !in a
    ensures CutAt(a + [sep] + b, sep) == |a|
  {
    if a != "" {
      assert (a + [sep] + b)[1..] == a[1..] + [sep] + b;
      CutAtFirst(a[1..], b, sep);
    }
  }

  // ---------- numbers ----------

  predicate IsDigit(c: char) { '0' <= c <= '9' }

  predicate Digits(s: string) {
    forall i :: 0 <= i < |s| ==> IsDigit(s[i])
  }

  function DigitsValue(s: string): nat
    requires Digits(s)
  {
    if s == "" then 0 else 10 * DigitsValue(s[..|s| - 1]) + (s[|s| - 1] as int - '0' as int)
  }

  const MAX_INT64 := 0x7FFF_FFFF_FFFF_FFFF

  // strconv.Atoi: an optional sign, at least one digit, in the range of a 64-bit integer
  function Atoi(s: string): Option<int> {
    var signed := s != "" && (s[0] == '-' || s[0] == '+');
    var body := if signed then s[1..] else s;
    if body == "" || !Digits(body) then None
    else
      var v: int := DigitsValue(body);
      var n := if signed && s[0] == '-' then -v else v;
      if -MAX_INT64 - 1 <= n <= MAX_INT64 then Some(n) else None
  }

  // strconv.Itoa on the non-negative numbers the code prints
  function Itoa(n: nat): (s: string)
    ensures s != "" && Digits(s) && DigitsValue(s) == n
  {
    var last := [(n % 10) as char + '0'];
    if n < 10 then
      last
    else
      var s := Itoa(n / 10) + last;
      assert s[..|s| - 1] == Itoa(n / 10);
      s
  }

  lemma AtoiItoa(n: nat)
    requires n <= MAX_INT64
    ensures Atoi(Itoa(n)) == Some(n)
  {
    assert IsDigit(Itoa(n)[0]);
  }

  lemma AtoiHasDigits(s: string)
    requires Atoi(s).Some?
    ensures s != "" && forall c :: c in s ==> IsDigit(c) || c == '+' || c == '-'
    ensures NoSpace(s)
  {
    var signed := s[0] == '-' || s[0] == '+';
    var body := if signed then s[1..] else s;
    assert forall i :: 0 <= i < |s| ==> s[i] == (if signed then (if i == 0 then s[0] else body[i - 1]) else body[i]);
  }

  // strings.ToUpper and strings.ToLower on ASCII letters
  function UpperChar(c: char): char {
    if 'a' <= c <= 'z' then (c as int - 32) as char else c
  }

  function LowerChar(c: char): char {
    if 'A' <= c <= 'Z' then (c as int + 32) as char else c
  }

  function ToUpper(s: string): (r: string)
    ensures |r| == |s|
  {
    seq(|s|, i requires 0 <= i < |s| => UpperChar(s[i]))
  }

  function ToLower(s: string): (r: string)
    ensures |r| == |s|
  {
    seq(|s|, i requires 0 <= i < |s| => LowerChar(s[i]))
  }

  predicate HasPrefix(s: string, p: string) { p <= s }

  // strings.TrimPrefix
  function TrimPrefix(s: string, p: string): string {
    if p <= s then s[|p|..] else s
  }

  predicate OccursAt(s: string, t: string, i: int) {
    0 <= i <= |s| - |t| && s[i..i + |t|] == t
  }

  // strings.Contains
  predicate Contains(s: string, t: string) {
    exists i :: 0 <= i <= |s| && OccursAt(s, t, i)
  }

  lemma OccurrenceAvoids(a: string, c: char, b: string, t: string, i: int)
    requires c !in t && OccursAt(a + [c] + b, t, i)
    ensures i + |t| <= |a| ==> OccursAt(a, t, i)
    ensures i > |a| ==> OccursAt(b, t, i - |a| - 1)
    ensures i + |t| <= |a| || i > |a|
  {
    var s := a + [c] + b;
    assert s[|a|] == c;
    assert forall k :: i <= k < i + |t| ==> s[k] == s[i..i + |t|][k - i] && t[k - i] in t;
    assert i > |a| ==> s[i..i + |t|] == b[i - |a| - 1..i - |a| - 1 + |t|];
    assert i + |t| <= |a| ==> s[i..i + |t|] == a[i..i + |t|];
  }

  lemma OccurrenceStays(a: string, c: char, b: string, t: string, i: int)
    ensures OccursAt(a, t, i) ==> OccursAt(a + [c] + b, t, i)
    ensures OccursAt(b, t, i) ==> OccursAt(a + [c] + b, t, i + |a| + 1)
  {
  }

  // A text that occurs around a character it does not have occurs on one side of it.
  lemma ContainsAround(a: string, c: char, b: string, t: string)
    requires c !in t
    ensures Contains(a + [c] + b, t) <==> Contains(a, t) || Contains(b, t)
  {
    var s := a + [c] + b;
    if Contains(s, t) {
      var i :| 0 <= i <= |s| && OccursAt(s, t, i);
      OccurrenceAvoids(a, c, b, t, i);
    }
    if Contains(a, t) {
      var i :| 0 <= i <= |a| && OccursAt(a, t, i);
      OccurrenceStays(a, c, b, t, i);
    }
    if Contains(b, t) {
      var i :| 0 <= i <= |b| && OccursAt(b, t, i);
      OccurrenceStays(a, c, b, t, i);
    }
  }

  // ---------- lists ----------

  function SetOf<T>(s: seq<T>): set<T> {
    set i | 0 <= i < |s| :: s[i]
  }

  lemma SetOfAppend<T>(a: seq<T>, b: seq<T>)
    ensures SetOf(a + b) == SetOf(a) + SetOf(b)
  {
    forall x | x in SetOf(a) + SetOf(b) ensures x in SetOf(a + b) {
      if x in SetOf(a) {
        var i :| 0 <= i < |a| && a[i] == x;
        assert (a + b)[i] == x;
      } else {
        var i :| 0 <= i < |b| && b[i] == x;
        assert (a + b)[|a| + i] == x;
      }
    }
  }

  // ---------- tables ----------

  function IndexOf(names: seq<string>, s: string): (r: Option<nat>)
    ensures r.Some? ==> r.value < |names| && names[r.value] == s
    ensures r.None? ==> s !in names
  {
    if names == [] then None
    else if names[0] == s then Some(0)
    else match IndexOf(names[1..], s) case None => None case Some(i) => Some(i + 1)
  }

  lemma {:induction false} IndexOfFirst(names: seq<string>, i: nat)
    requires i < |names| && forall j :: 0 <= j < i ==> names[j] != names[i]
    ensures IndexOf(names, names[i]) == Some(i)
  {
    if i > 0 { IndexOfFirst(names[1..], i - 1); }
  }

  predicate Distinct(names: seq<string>) {
    forall i, j :: 0 <= i < j < |names| ==> names[i] != names[j]
  }

  lemma IndexOfDistinct(names: seq<string>, i: nat)
    requires i < |names| && Distinct(names)
    ensures IndexOf(names, names[i]) == Some(i)
  {
  }
}
