/** stableOrderBy and the paged task query: with the id tiebreaker the order is total, so pages cut
    from separate queries fit together. */
module Paging {
  import opened Text

  const ID := "id"

  // ---------- the text of the clause ----------

  // strings.Trim of double quotes
  function TrimQuotes(s: string): (r: string)
    ensures |r| <= |s|
    decreases |s|
  {
    if s != "" && s[0] == '"' then TrimQuotes(s[1..])
    else if s != "" && s[|s| - 1] == '"' then TrimQuotes(s[..|s| - 1])
    else s
  }

  // What follows the last dot, or everything.
  function AfterLastDot(s: string): string
    decreases |s|
  {
    if s == "" then ""
    else if s[|s| - 1] == '.' then ""
    else AfterLastDot(s[..|s| - 1]) + [s[|s| - 1]]
  }

  // The column a part of the clause sorts by.
  function ColumnOf(part: string): Option<string> {
    var f := Fields(TrimSpace(part));
    if f == [] then None
    else
      var name := TrimQuotes(f[0]);
      Some(ToLower(if '.' in name then TrimQuotes(AfterLastDot(name)) else name))
  }

  predicate Names(part: string, column: string) { ColumnOf(part) == Some(ToLower(column)) }

  predicate SortsBy(parts: seq<string>, n: nat, column: string)
    requires n <= |parts|
  {
    exists i :: 0 <= i < n && Names(parts[i], column)
  }

  lemma SortsByNext(parts: seq<string>, n: nat, column: string)
    requires n < |parts|
    ensures SortsBy(parts, n + 1, column) <==> SortsBy(parts, n, column) || Names(parts[n], column)
    ensures SortsBy(parts, n + 1, column) ==> SortsBy(parts, |parts|, column)
  {
  }

  // orderByIncludesColumn; a blank part names no column.
  method OrderByIncludesColumn(orderBy: string, column: string) returns (found: bool)
    ensures found <==> SortsBy(Split(orderBy, ','), |Split(orderBy, ',')|, column)
  {
    var parts := Split(orderBy, ',');
    var i := 0;
    while i < |parts|
      invariant 0 <= i <= |parts|
      invariant !SortsBy(parts, i, column)
    {
      SortsByNext(parts, i, column);
      if Names(parts[i], column) {
        return true;
      }
      i := i + 1;
    }
    found := false;
  }

  const NEWEST_FIRST := "created_at DESC"
  const TIE := " id ASC"

  // stableOrderBy
  function StableOrderBy(orderBy: string): string {
    var given := TrimSpace(orderBy);
    var clause := if given == "" then NEWEST_FIRST else given;
    var parts := Split(clause, ',');
    if SortsBy(parts, |parts|, ID) then clause else clause + "," + TIE
  }

  // ---------- the clause as an order on rows ----------

  datatype Term = Term(column: string, descending: bool)

  // A column that is not among columns is NULL.
  datatype Row = Row(id: int, columns: map<string, int>)

  function Descending(part: string): bool {
    var f := Fields(TrimSpace(part));
    |f| >= 2 && ToLower(f[1]) == "desc"
  }

  function TermsOf(parts: seq<string>): seq<Term> {
    if parts == [] then []
    else
      var rest := TermsOf(parts[1..]);
      match ColumnOf(parts[0]) case None => rest case Some(c) => [Term(c, Descending(parts[0]))] + rest
  }

  // ORDER BY, read term by term
  function Terms(orderBy: string): seq<Term> { TermsOf(Split(orderBy, ',')) }

  function Value(r: Row, column: string): Option<int> {
    if column == ID then Some(r.id) else if column in r.columns then Some(r.columns[column]) else None
  }

  // NULL sorts as if it were larger than every value: last in ascending order, first in descending.
  function Order(v: Option<int>, w: Option<int>): int {
    if v.Some? && w.Some? then v.value - w.value
    else if v.Some? then -1
    else if w.Some? then 1
    else 0
  }

  // Negative when r comes first, 0 when the terms do not tell the rows apart.
  function Compare(r: Row, q: Row, terms: seq<Term>): int {
    if terms == [] then 0
    else
      var c := Order(Value(r, terms[0].column), Value(q, terms[0].column));
      if c == 0 then Compare(r, q, terms[1..]) else if terms[0].descending then -c else c
  }

  predicate Tiebreaks(terms: seq<Term>) {
    exists i :: 0 <= i < |terms| && terms[i].column == ID
  }

  // ---------- the tiebreaker ----------

  const DESC := "DESC"
  const ASC := "ASC"

  predicate PlainName(w: string) {
    IsWord(w) && forall i :: 0 <= i < |w| ==> w[i] != '"' && w[i] != '.'
  }

  lemma WordsOfPart(w: string, d: string)
    requires IsWord(w) && IsWord(d)
    ensures Fields(TrimSpace(w + " " + d)) == [w, d] && TrimSpace(w + " " + d) == w + " " + d
  {
    var part := w + " " + d;
    assert part[0] == w[0] && part[|part| - 1] == d[|d| - 1];
    TrimSpaceFixes(part);
    FieldsCons(w, d);
    assert d + "" == d;
    FieldsWord(d, "");
  }

  lemma DirectionWords(up: string, down: string)
    requires up == ASC && down == DESC
    ensures IsWord(up) && IsWord(down) && ToLower(down) == "desc" && ToLower(up) != "desc"
    ensures ',' !in up && ',' !in down
  {
    assert ToLower(up)[0] == 'a';
  }

  lemma TieIsWords(tie: string, w: string, d: string)
    requires tie == TIE && w == ID && d == ASC
    ensures PlainName(w) && IsWord(d) && ToLower(w) == w && ',' !in tie && tie == " " + (w + " " + d)
  {
  }

  lemma TrimPadded(t: string)
    ensures TrimSpace(" " + t) == TrimSpace(t)
  {
    assert (" " + t)[1..] == t;
  }

  // A part of two words is a column and a direction.
  lemma TwoWords(part: string, w: string, d: string)
    requires PlainName(w) && Fields(TrimSpace(part)) == [w, d]
    ensures TermsOf([part]) == [Term(ToLower(w), ToLower(d) == "desc")]
  {
    assert TrimQuotes(w) == w && '.' !in w;
    assert ColumnOf(part) == Some(ToLower(w));
    assert TermsOf([part][1..]) == [];
  }

  lemma TieReads(tie: string, w: string, d: string)
    requires tie == TIE && w == ID && d == ASC
    ensures TermsOf([tie]) == [Term(ID, false)] && ToLower(ID) == ID
  {
    TieIsWords(tie, w, d);
    DirectionWords(ASC, DESC);
    TrimPadded(w + " " + d);
    WordsOfPart(w, d);
    TwoWords(tie, w, d);
  }

  lemma TieIsOnePart(clause: string, tie: string)
    requires tie == TIE
    ensures Split(clause + "," + tie, ',') == Split(clause, ',') + [tie]
  {
    TieIsWords(tie, ID, ASC);
    assert clause + "," + tie == clause + [','] + tie;
    SplitAround(clause, tie, ',');
    SplitWhole(tie, ',');
  }

  lemma {:induction false} TermsAppend(parts: seq<string>, more: seq<string>)
    ensures TermsOf(parts + more) == TermsOf(parts) + TermsOf(more)
  {
    if parts == [] {
      assert parts + more == more;
    } else {
      assert (parts + more)[1..] == parts[1..] + more;
      TermsAppend(parts[1..], more);
    }
  }

  lemma TiebreaksAppend(a: seq<Term>, b: seq<Term>)
    ensures Tiebreaks(a + b) <==> Tiebreaks(a) || Tiebreaks(b)
  {
    var all := a + b;
    if i :| 0 <= i < |a| && a[i].column == ID { assert all[i].column == ID; }
    if i :| 0 <= i < |b| && b[i].column == ID { assert all[|a| + i].column == ID; }
    if i :| 0 <= i < |all| && all[i].column == ID { assert all[i] == if i < |a| then a[i] else b[i - |a|]; }
  }

  lemma SortsByCons(parts: seq<string>, column: string)
    requires parts != []
    ensures SortsBy(parts, |parts|, column) <==>
            Names(parts[0], column) || SortsBy(parts[1..], |parts[1..]|, column)
  {
    var rest := parts[1..];
    if i :| 0 <= i < |rest| && Names(rest[i], column) { assert Names(parts[i + 1], column); }
    if i :| 0 < i < |parts| && Names(parts[i], column) { assert Names(rest[i - 1], column); }
  }

  lemma OnePartTerms(part: string)
    ensures Tiebreaks(TermsOf([part])) <==> ColumnOf(part) == Some(ID)
  {
    assert TermsOf([part][1..]) == [];
    if ColumnOf(part) == Some(ID) { assert TermsOf([part])[0].column == ID; }
  }

  lemma {:induction false} SortsByIdExactly(parts: seq<string>)
    ensures SortsBy(parts, |parts|, ID) <==> Tiebreaks(TermsOf(parts))
  {
    TieReads(TIE, ID, ASC);
    if parts != [] {
      SortsByIdExactly(parts[1..]);
      SortsByCons(parts, ID);
      OnePartTerms(parts[0]);
      assert [parts[0]] + parts[1..] == parts;
      TermsAppend([parts[0]], parts[1..]);
      TiebreaksAppend(TermsOf([parts[0]]), TermsOf(parts[1..]));
    }
  }

  function WithTie(terms: seq<Term>): seq<Term> {
    if Tiebreaks(terms) then terms else terms + [Term(ID, false)]
  }

  // What is sent sorts by the terms of the clause, unchanged and in front, and after them by id in
  // ascending order unless one of them is the id.
  lemma GivenTermsComeFirst(clause: string)
    ensures var parts := Split(clause, ',');
            Terms(if SortsBy(parts, |parts|, ID) then clause else clause + "," + TIE) == WithTie(Terms(clause))
  {
    var parts := Split(clause, ',');
    SortsByIdExactly(parts);
    TieIsOnePart(clause, TIE);
    TieReads(TIE, ID, ASC);
    TermsAppend(parts, [TIE]);
  }

  // Whatever order is asked for, the clause that is sent sorts by id as well.
  lemma StableOrderHasId(orderBy: string)
    ensures Tiebreaks(Terms(StableOrderBy(orderBy)))
  {
    var given := TrimSpace(orderBy);
    var clause := if given == "" then NEWEST_FIRST else given;
    GivenTermsComeFirst(clause);
    TiebreaksAppend(Terms(clause), [Term(ID, false)]);
    assert [Term(ID, false)][0].column == ID;
  }

  // ---------- sorted results ----------

  lemma {:induction false} CompareFlips(r: Row, q: Row, terms: seq<Term>)
    ensures Compare(q, r, terms) == -Compare(r, q, terms)
  {
    if terms != [] { CompareFlips(r, q, terms[1..]); }
  }

  lemma {:induction false} EqualIsSameId(r: Row, q: Row, terms: seq<Term>)
    requires Tiebreaks(terms) && Compare(r, q, terms) == 0
    ensures r.id == q.id
  {
    if terms[0].column != ID {
      var i :| 0 <= i < |terms| && terms[i].column == ID;
      assert terms[1..][i - 1].column == ID;
      EqualIsSameId(r, q, terms[1..]);
    }
  }

  predicate UniqueIds(rows: set<Row>) {
    forall r, q :: r in rows && q in rows && r.id == q.id ==> r == q
  }

  // A result of the query: the rows, each once, in the order of the terms. Rows the terms do not
  // tell apart may come in any order, and in another one each time.
  predicate Result(rows: set<Row>, terms: seq<Term>, list: seq<Row>) {
    && (forall r :: r in rows ==> r in list) && (forall i :: 0 <= i < |list| ==> list[i] in rows)
    && (forall i, j :: 0 <= i < j < |list| ==> list[i] != list[j] && Compare(list[i], list[j], terms) <= 0)
  }

  lemma {:induction false} ResultSize(rows: set<Row>, terms: seq<Term>, list: seq<Row>)
    requires Result(rows, terms, list)
    ensures |list| == |rows|
    decreases |list|
  {
    if list == [] {
      assert forall r :: r !in rows;
      assert rows == {};
    } else {
      TailResult(rows, terms, list);
      ResultSize(rows - {list[0]}, terms, list[1..]);
    }
  }

  lemma TailResult(rows: set<Row>, terms: seq<Term>, list: seq<Row>)
    requires Result(rows, terms, list) && list != []
    ensures Result(rows - {list[0]}, terms, list[1..])
  {
    forall r | r in rows - {list[0]} ensures r in list[1..] {
      var i :| 0 <= i < |list| && list[i] == r;
      assert list[1..][i - 1] == r;
    }
  }

  // With the tiebreaker there is one result only.
  lemma {:induction false} OneResult(rows: set<Row>, terms: seq<Term>, a: seq<Row>, b: seq<Row>)
    requires UniqueIds(rows) && Tiebreaks(terms) && Result(rows, terms, a) && Result(rows, terms, b)
    ensures a == b
    decreases |a|
  {
    ResultSize(rows, terms, a);
    ResultSize(rows, terms, b);
    if a != [] {
      var i :| 0 <= i < |b| && b[i] == a[0];
      var j :| 0 <= j < |a| && a[j] == b[0];
      CompareFlips(a[0], b[0], terms);
      assert i > 0 ==> Compare(b[0], b[i], terms) <= 0;
      assert j > 0 ==> Compare(a[0], a[j], terms) <= 0;
      if a[0] != b[0] { EqualIsSameId(a[0], b[0], terms); }
      TailResult(rows, terms, a);
      TailResult(rows, terms, b);
      OneResult(rows - {a[0]}, terms, a[1..], b[1..]);
    }
  }

  // ---------- the order that was asked for ----------

  const CREATED_AT := "created_at"

  // Value v comes before value w: smaller in ascending order, larger in descending; NULL counts as
  // the largest.
  predicate Precedes(v: Option<int>, w: Option<int>, descending: bool) {
    match (v, w)
    case (Some(x), Some(y)) => if descending then x > y else x < y
    case (Some(_), None) => !descending
    case (None, Some(_)) => descending
    case (None, None) => false
  }

  predicate SameUpTo(r: Row, q: Row, terms: seq<Term>, k: nat)
    requires k <= |terms|
  {
    forall j :: 0 <= j < k ==> Value(r, terms[j].column) == Value(q, terms[j].column)
  }

  // The first term that tells the rows apart puts r before q.
  predicate Before(r: Row, q: Row, terms: seq<Term>) {
    exists k :: 0 <= k < |terms| && SameUpTo(r, q, terms, k)
                && Precedes(Value(r, terms[k].column), Value(q, terms[k].column), terms[k].descending)
  }

  lemma BeforeCons(r: Row, q: Row, terms: seq<Term>)
    requires terms != []
    ensures var v, w := Value(r, terms[0].column), Value(q, terms[0].column);
            Before(r, q, terms) <==> Precedes(v, w, terms[0].descending) || (v == w && Before(r, q, terms[1..]))
  {
    var rest := terms[1..];
    if Before(r, q, rest) && Value(r, terms[0].column) == Value(q, terms[0].column) {
      var k :| 0 <= k < |rest| && SameUpTo(r, q, rest, k)
               && Precedes(Value(r, rest[k].column), Value(q, rest[k].column), rest[k].descending);
      assert forall j :: 1 <= j < k + 1 ==> terms[j] == rest[j - 1];
      assert SameUpTo(r, q, terms, k + 1) && terms[k + 1] == rest[k];
    }
    if Precedes(Value(r, terms[0].column), Value(q, terms[0].column), terms[0].descending) {
      assert SameUpTo(r, q, terms, 0);
    }
    if k :| 0 < k < |terms| && SameUpTo(r, q, terms, k)
            && Precedes(Value(r, terms[k].column), Value(q, terms[k].column), terms[k].descending) {
      assert forall j :: 0 <= j < k - 1 ==> rest[j] == terms[j + 1];
      assert SameUpTo(r, q, rest, k - 1) && rest[k - 1] == terms[k];
    }
  }

  lemma {:induction false} CompareIsOrder(r: Row, q: Row, terms: seq<Term>)
    ensures Compare(r, q, terms) < 0 <==> Before(r, q, terms)
  {
    if terms != [] {
      BeforeCons(r, q, terms);
      CompareIsOrder(r, q, terms[1..]);
    }
  }

  function Part(t: Term): string { t.column + " " + if t.descending then DESC else ASC }

  // A column name as it is written in a clause, in lower case.
  predicate Plain(column: string) { PlainName(column) && ',' !in column && ToLower(column) == column }

  lemma PartReads(t: Term)
    requires Plain(t.column)
    ensures TermsOf([Part(t)]) == [t]
  {
    var d := if t.descending then DESC else ASC;
    DirectionWords(ASC, DESC);
    WordsOfPart(t.column, d);
    TwoWords(Part(t), t.column, d);
  }

  // The clause a caller writes for these terms.
  function Clause(terms: seq<Term>): string
    requires terms != []
  {
    if |terms| == 1 then Part(terms[0]) else Part(terms[0]) + "," + Clause(terms[1..])
  }

  predicate PlainTerms(terms: seq<Term>) { forall i :: 0 <= i < |terms| ==> Plain(terms[i].column) }

  lemma {:induction false} ClauseReads(terms: seq<Term>)
    requires terms != [] && PlainTerms(terms)
    ensures Terms(Clause(terms)) == terms
  {
    var first := Part(terms[0]);
    DirectionWords(ASC, DESC);
    assert ',' !in first;
    PartReads(terms[0]);
    if |terms| == 1 {
      SplitWhole(first, ',');
      assert [terms[0]] == terms;
    } else {
      var rest := Clause(terms[1..]);
      ClauseReads(terms[1..]);
      assert first + "," + rest == first + [','] + rest;
      SplitFirst(first, rest, ',');
      TermsAppend([first], Split(rest, ','));
      assert [terms[0]] + terms[1..] == terms;
    }
  }

  lemma {:induction false} ClauseIsTrimmed(terms: seq<Term>)
    requires terms != [] && PlainTerms(terms)
    ensures Clause(terms) != "" && Trimmed(Clause(terms))
  {
    DirectionWords(ASC, DESC);
    var c, first := Clause(terms), Part(terms[0]);
    assert c[0] == first[0] == terms[0].column[0];
    if |terms| > 1 {
      ClauseIsTrimmed(terms[1..]);
      var rest := Clause(terms[1..]);
      assert c[|c| - 1] == rest[|rest| - 1];
    } else {
      var d := if terms[0].descending then DESC else ASC;
      assert c[|c| - 1] == d[|d| - 1];
    }
  }

  lemma CreatedAtIsPlain(c: string)
    requires c == CREATED_AT
    ensures Plain(c)
  {
    assert NoSpace(c);
    assert ToLower(c) == c;
  }

  lemma NewestFirstReads(c: string, d: string, clause: string)
    requires c == CREATED_AT && d == DESC && clause == NEWEST_FIRST
    ensures Terms(clause) == [Term(CREATED_AT, true)]
  {
    var t := Term(c, true);
    CreatedAtIsPlain(c);
    assert clause == c + " " + d;
    assert Clause([t]) == clause;
    ClauseReads([t]);
  }

  // A clause of plain terms is sent as these terms, then the id; a blank one as newest first.
  lemma StableOrderTerms(orderBy: string, terms: seq<Term>)
    requires if terms == [] then TrimSpace(orderBy) == "" else PlainTerms(terms) && orderBy == Clause(terms)
    ensures Terms(StableOrderBy(orderBy)) == WithTie(if terms == [] then [Term(CREATED_AT, true)] else terms)
  {
    if terms == [] {
      NewestFirstReads(CREATED_AT, DESC, NEWEST_FIRST);
      GivenTermsComeFirst(NEWEST_FIRST);
    } else {
      ClauseIsTrimmed(terms);
      TrimSpaceFixes(orderBy);
      ClauseReads(terms);
      GivenTermsComeFirst(orderBy);
    }
  }

  // Main result: in a result each row comes before the later ones by the terms asked for, in their
  // order and direction, and where they do not decide by id; when nothing was asked for, the newest
  // come first.
  lemma AskedOrderIsKept(rows: set<Row>, orderBy: string, terms: seq<Term>, list: seq<Row>, i: nat, j: nat)
    requires if terms == [] then TrimSpace(orderBy) == "" else PlainTerms(terms) && orderBy == Clause(terms)
    requires UniqueIds(rows) && Result(rows, Terms(StableOrderBy(orderBy)), list) && i < j < |list|
    ensures Before(list[i], list[j], WithTie(if terms == [] then [Term(CREATED_AT, true)] else terms))
  {
    StableOrderTerms(orderBy, terms);
    StableOrderHasId(orderBy);
    var sent := Terms(StableOrderBy(orderBy));
    if Compare(list[i], list[j], sent) == 0 { EqualIsSameId(list[i], list[j], sent); }
    CompareIsOrder(list[i], list[j], sent);
  }

  // ---------- pages ----------

  function EffectivePage(page: int): (p: int)
    ensures p >= 1
  {
    if page < 1 then 1 else page
  }

  function EffectiveSize(size: int): (n: int)
    ensures n >= 1
  {
    if size < 1 then 50 else size
  }

  function Least(a: int, b: int): int { if a < b then a else b }

  // OFFSET and LIMIT on one result
  function Page(list: seq<Row>, page: int, size: int): seq<Row> {
    var from := (EffectivePage(page) - 1) * EffectiveSize(size);
    if from >= |list| then [] else list[from..Least(from + EffectiveSize(size), |list|)]
  }

  // The first n pages, each cut from a result of its own.
  function Pages(results: seq<seq<Row>>, n: nat, size: int): seq<Row>
    requires n <= |results|
  {
    if n == 0 then [] else Pages(results, n - 1, size) + Page(results[n - 1], n, size)
  }

  // How many rows n pages hold.
  function Rows(n: nat, size: int): nat {
    if n == 0 then 0 else Rows(n - 1, size) + EffectiveSize(size)
  }

  lemma {:induction false} RowsAre(n: nat, size: int)
    ensures Rows(n, size) == n * EffectiveSize(size)
  {
    if n > 0 { RowsAre(n - 1, size); }
  }

  // Up to n rows from a given one on.
  function Cut(list: seq<Row>, from: nat, n: nat): seq<Row> {
    if from >= |list| then [] else list[from..Least(from + n, |list|)]
  }

  lemma PageAt(list: seq<Row>, n: nat, size: int)
    requires n >= 1
    ensures Page(list, n, size) == Cut(list, Rows(n - 1, size), EffectiveSize(size))
  {
    RowsAre(n - 1, size);
  }

  lemma CutRows(list: seq<Row>, from: nat, n: nat, k: nat)
    ensures k < |Cut(list, from, n)| <==> k < n && from + k < |list|
    ensures k < |Cut(list, from, n)| ==> Cut(list, from, n)[k] == list[from + k]
  {
  }

  function Offset(page: int, n: nat): int {
    if page >= 1 then (page - 1) * n else 0
  }

  // Page p of size n holds the rows from (p - 1) * n on, at most n of them; pages start at 1, and
  // without a size they hold 50.
  lemma PageRows(list: seq<Row>, page: int, size: int, k: nat)
    ensures var n := if size >= 1 then size else 50;
            && Offset(page, n) >= 0
            && (k < |Page(list, page, size)| <==> k < n && Offset(page, n) + k < |list|)
            && (k < |Page(list, page, size)| ==> Page(list, page, size)[k] == list[Offset(page, n) + k])
  {
    var p := EffectivePage(page);
    assert Page(list, page, size) == Page(list, p, size);
    PageAt(list, p, size);
    RowsAre(p - 1, size);
    RowsAre(0, size);
    CutRows(list, Rows(p - 1, size), EffectiveSize(size), k);
  }

  lemma CutExtends(list: seq<Row>, from: nat, n: nat)
    ensures list[..Least(from, |list|)] + Cut(list, from, n) == list[..Least(from + n, |list|)]
  {
  }

  function Cuts(list: seq<Row>, n: nat, size: int): seq<Row> {
    if n == 0 then [] else Cuts(list, n - 1, size) + Cut(list, Rows(n - 1, size), EffectiveSize(size))
  }

  lemma {:induction false} PagesAreCuts(list: seq<Row>, results: seq<seq<Row>>, n: nat, size: int)
    requires n <= |results| && forall i :: 0 <= i < n ==> results[i] == list
    ensures Pages(results, n, size) == Cuts(list, n, size)
  {
    if n > 0 {
      PagesAreCuts(list, results, n - 1, size);
      PageAt(list, n, size);
    }
  }

  lemma {:induction false} CutsArePrefix(list: seq<Row>, n: nat, size: int)
    ensures Cuts(list, n, size) == list[..Least(Rows(n, size), |list|)]
  {
    if n > 0 {
      CutsArePrefix(list, n - 1, size);
      CutExtends(list, Rows(n - 1, size), EffectiveSize(size));
    }
  }

  lemma PagesFit(rows: set<Row>, terms: seq<Term>, results: seq<seq<Row>>, size: int, list: seq<Row>)
    requires UniqueIds(rows) && Tiebreaks(terms) && Result(rows, terms, list)
    requires forall i :: 0 <= i < |results| ==> Result(rows, terms, results[i])
    requires |results| * EffectiveSize(size) >= |rows|
    ensures Pages(results, |results|, size) == list && |list| == |rows|
  {
    forall i | 0 <= i < |results| ensures results[i] == list { OneResult(rows, terms, results[i], list); }
    ResultSize(rows, terms, list);
    PagesAreCuts(list, results, |results|, size);
    CutsArePrefix(list, |results|, size);
    RowsAre(|results|, size);
    assert list[..|list|] == list;
  }

  // Main result: on an unchanged table, for any requested order, the pages of separate queries
  // put together are the one sorted list of the matching rows, each row exactly once.
  lemma PagesPartition(rows: set<Row>, orderBy: string, results: seq<seq<Row>>, size: int, list: seq<Row>)
    requires UniqueIds(rows) && Result(rows, Terms(StableOrderBy(orderBy)), list)
    requires forall i :: 0 <= i < |results| ==> Result(rows, Terms(StableOrderBy(orderBy)), results[i])
    requires |results| * EffectiveSize(size) >= |rows|
    ensures Pages(results, |results|, size) == list && |list| == |rows|
  {
    StableOrderHasId(orderBy);
    PagesFit(rows, Terms(StableOrderBy(orderBy)), results, size, list);
  }

  // Without the tiebreaker two rows with one key can swap between queries: one of them is then
  // on both pages and the other on none.
  lemma TiesCanSplitPages(r: Row, q: Row, terms: seq<Term>)
    requires r.id != q.id && Compare(r, q, terms) == 0
    ensures Result({r, q}, terms, [r, q]) && Result({r, q}, terms, [q, r])
    ensures Pages([[r, q], [q, r]], 2, 1) == [r, r]
  {
    CompareFlips(r, q, terms);
    var results := [[r, q], [q, r]];
    assert Pages(results, 0, 1) == [];
    assert Page(results[0], 1, 1) == [r];
    assert Page(results[1], 2, 1) == [r];
    assert Pages(results, 1, 1) == [] + [r];
    assert Pages(results, 2, 1) == Pages(results, 1, 1) + [r];
  }
}
