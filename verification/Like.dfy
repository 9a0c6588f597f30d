/** escapeLikePattern: a title filter matches exactly the titles that contain the text. */
module Like {
  import opened Text

  // strings.ReplaceAll of a one-character text
  function ReplaceAll(s: string, c: char, t: string): string {
    if s == "" then "" else (if s[0] == c then t else [s[0]]) + ReplaceAll(s[1..], c, t)
  }

  const ESCAPE := '\\'

  // escapeLikePattern
  function EscapeLikePattern(s: string): string {
    ReplaceAll(ReplaceAll(ReplaceAll(s, ESCAPE, [ESCAPE, ESCAPE]), '%', [ESCAPE, '%']), '_', [ESCAPE, '_'])
  }

  predicate Special(c: char) { c == ESCAPE || c == '%' || c == '_' }

  // Every special character escaped in one pass.
  function Escaped(s: string): string {
    if s == "" then "" else (if Special(s[0]) then [ESCAPE, s[0]] else [s[0]]) + Escaped(s[1..])
  }

  lemma {:induction false} ReplaceConcat(a: string, b: string, c: char, t: string)
    ensures ReplaceAll(a + b, c, t) == ReplaceAll(a, c, t) + ReplaceAll(b, c, t)
  {
    if a == "" {
      assert a + b == b;
    } else {
      assert (a + b)[1..] == a[1..] + b;
      ReplaceConcat(a[1..], b, c, t);
    }
  }

  lemma ReplaceOne(d: char, c: char, t: string)
    ensures ReplaceAll([d], c, t) == if d == c then t else [d]
  {
    assert [d][1..] == "" && ReplaceAll("", c, t) == "";
  }

  lemma ReplacePair(d: char, e: char, c: char, t: string)
    requires d != c
    ensures ReplaceAll([d, e], c, t) == [d] + if e == c then t else [e]
  {
    assert [d, e] == [d] + [e];
    ReplaceConcat([d], [e], c, t);
    ReplaceOne(d, c, t);
    ReplaceOne(e, c, t);
  }

  lemma EscapeOne(c: char)
    ensures EscapeLikePattern([c]) == if Special(c) then [ESCAPE, c] else [c]
  {
    ReplaceOne(c, ESCAPE, [ESCAPE, ESCAPE]);
    if c == ESCAPE {
      ReplacePair(ESCAPE, ESCAPE, '%', [ESCAPE, '%']);
      ReplacePair(ESCAPE, ESCAPE, '_', [ESCAPE, '_']);
    } else {
      ReplaceOne(c, '%', [ESCAPE, '%']);
      if c == '%' {
        ReplacePair(ESCAPE, '%', '_', [ESCAPE, '_']);
      } else {
        ReplaceOne(c, '_', [ESCAPE, '_']);
      }
    }
  }

  lemma EscapeConcat(a: string, b: string)
    ensures EscapeLikePattern(a + b) == EscapeLikePattern(a) + EscapeLikePattern(b)
  {
    var a1, b1 := ReplaceAll(a, ESCAPE, [ESCAPE, ESCAPE]), ReplaceAll(b, ESCAPE, [ESCAPE, ESCAPE]);
    ReplaceConcat(a, b, ESCAPE, [ESCAPE, ESCAPE]);
    ReplaceConcat(a1, b1, '%', [ESCAPE, '%']);
    ReplaceConcat(ReplaceAll(a1, '%', [ESCAPE, '%']), ReplaceAll(b1, '%', [ESCAPE, '%']), '_', [ESCAPE, '_']);
  }

  // The three passes escape each character once: none touches what another inserted.
  lemma {:induction false} ThreePassesAreOne(s: string)
    ensures EscapeLikePattern(s) == Escaped(s)
  {
    if s != "" {
      assert s == [s[0]] + s[1..];
      EscapeConcat([s[0]], s[1..]);
      EscapeOne(s[0]);
      ThreePassesAreOne(s[1..]);
    }
  }

  // ---------- LIKE ----------

  type Fold = char -> char

  // LIKE with a backslash as escape character; ILIKE when fold folds case.
  predicate Matches(p: string, s: string, fold: Fold)
    decreases |p|, |s|
  {
    if p == "" then s == ""
    else if p[0] == '%' then Matches(p[1..], s, fold) || (s != "" && Matches(p, s[1..], fold))
    else if p[0] == '_' then s != "" && Matches(p[1..], s[1..], fold)
    else if p[0] == ESCAPE then |p| >= 2 && s != "" && fold(p[1]) == fold(s[0]) && Matches(p[2..], s[1..], fold)
    else s != "" && fold(p[0]) == fold(s[0]) && Matches(p[1..], s[1..], fold)
  }

  function Folded(s: string, fold: Fold): (r: string)
    ensures |r| == |s|
    ensures forall i :: 0 <= i < |s| ==> r[i] == fold(s[i])
  {
    if s == "" then "" else [fold(s[0])] + Folded(s[1..], fold)
  }

  // s begins with t up to folding.
  predicate Begins(s: string, t: string, fold: Fold) {
    |t| <= |s| && forall i :: 0 <= i < |t| ==> fold(t[i]) == fold(s[i])
  }

  lemma BeginsCons(s: string, t: string, fold: Fold)
    requires t != ""
    ensures Begins(s, t, fold) <==> s != "" && fold(t[0]) == fold(s[0]) && Begins(s[1..], t[1..], fold)
  {
    if s != "" && Begins(s[1..], t[1..], fold) && fold(t[0]) == fold(s[0]) {
      assert forall i :: 1 <= i < |t| ==> t[i] == t[1..][i - 1] && s[i] == s[1..][i - 1];
    }
  }

  lemma MatchesEscape(c: char, rest: string, s: string, fold: Fold)
    ensures Matches([ESCAPE, c] + rest, s, fold) <==> s != "" && fold(c) == fold(s[0]) && Matches(rest, s[1..], fold)
  {
    var p := [ESCAPE, c] + rest;
    assert p[2..] == rest;
  }

  lemma MatchesPlain(c: char, rest: string, s: string, fold: Fold)
    requires !Special(c)
    ensures Matches([c] + rest, s, fold) <==> s != "" && fold(c) == fold(s[0]) && Matches(rest, s[1..], fold)
  {
    var p := [c] + rest;
    assert p[1..] == rest;
  }

  lemma LiteralHead(t: string, q: string, s: string, fold: Fold)
    requires t != ""
    ensures Matches(Escaped(t) + q, s, fold) <==>
            s != "" && fold(t[0]) == fold(s[0]) && Matches(Escaped(t[1..]) + q, s[1..], fold)
  {
    var rest := Escaped(t[1..]) + q;
    if Special(t[0]) {
      assert Escaped(t) + q == [ESCAPE, t[0]] + rest;
      MatchesEscape(t[0], rest, s, fold);
    } else {
      assert Escaped(t) + q == [t[0]] + rest;
      MatchesPlain(t[0], rest, s, fold);
    }
  }

  lemma {:induction false} LiteralPrefix(t: string, q: string, s: string, fold: Fold)
    ensures Matches(Escaped(t) + q, s, fold) <==> Begins(s, t, fold) && Matches(q, s[|t|..], fold)
    decreases |t|
  {
    if t == "" {
      assert Escaped(t) + q == q && s[0..] == s;
    } else {
      LiteralHead(t, q, s, fold);
      BeginsCons(s, t, fold);
      if s != "" {
        LiteralPrefix(t[1..], q, s[1..], fold);
        assert |t| <= |s| ==> s[1..][|t[1..]|..] == s[|t|..];
      }
    }
  }

  lemma {:induction false} AnythingMatches(p: string, s: string, fold: Fold)
    requires p == "%"
    ensures Matches(p, s, fold)
    decreases |s|
  {
    if s == "" {
      assert p[1..] == "";
      assert Matches(p[1..], s, fold);
    } else {
      AnythingMatches(p, s[1..], fold);
    }
  }

  predicate MatchesFrom(q: string, s: string, i: int, fold: Fold) {
    0 <= i <= |s| && Matches(q, s[i..], fold)
  }

  lemma {:induction false} AfterAnything(p: string, q: string, s: string, fold: Fold)
    requires p == "%" + q
    ensures Matches(p, s, fold) <==> exists i :: 0 <= i <= |s| && MatchesFrom(q, s, i, fold)
    decreases |s|
  {
    assert p[1..] == q && s[0..] == s;
    if s != "" {
      AfterAnything(p, q, s[1..], fold);
      assert forall i :: 1 <= i <= |s| ==> s[i..] == s[1..][i - 1..];
      forall i | 0 <= i <= |s[1..]| ensures MatchesFrom(q, s[1..], i, fold) <==> MatchesFrom(q, s, i + 1, fold) {
        assert s[1..][i..] == s[i + 1..];
      }
      if exists i :: 0 <= i <= |s| && MatchesFrom(q, s, i, fold) {
        var i :| 0 <= i <= |s| && MatchesFrom(q, s, i, fold);
        if i > 0 { assert MatchesFrom(q, s[1..], i - 1, fold); }
      }
      if Matches(q, s, fold) { assert MatchesFrom(q, s, 0, fold); }
    } else {
      if Matches(q, s, fold) { assert MatchesFrom(q, s, 0, fold); }
    }
  }

  lemma FoldedSlice(s: string, t: string, i: int, fold: Fold)
    requires 0 <= i <= |s|
    ensures Begins(s[i..], t, fold) <==> OccursAt(Folded(s, fold), Folded(t, fold), i)
  {
    var f, g := Folded(s, fold), Folded(t, fold);
    if Begins(s[i..], t, fold) {
      assert forall k :: 0 <= k < |t| ==> f[i..i + |t|][k] == g[k];
      assert f[i..i + |t|] == g;
    }
    if OccursAt(f, g, i) {
      forall k | 0 <= k < |t| ensures fold(t[k]) == fold(s[i..][k]) {
        assert f[i..i + |t|][k] == g[k];
      }
    }
  }

  // Main result: the pattern made for a title filter matches a title if and only if the text
  // occurs in it literally, up to case folding.
  lemma PatternIsSubstring(t: string, s: string, fold: Fold)
    ensures Matches("%" + EscapeLikePattern(t) + "%", s, fold) <==> Contains(Folded(s, fold), Folded(t, fold))
  {
    ThreePassesAreOne(t);
    var any := "%";
    var q := Escaped(t) + any;
    assert any + Escaped(t) + any == any + q;
    AfterAnything(any + q, q, s, fold);
    forall i | 0 <= i <= |s| ensures MatchesFrom(q, s, i, fold) <==> OccursAt(Folded(s, fold), Folded(t, fold), i) {
      LiteralPrefix(t, any, s[i..], fold);
      if |t| <= |s[i..]| { AnythingMatches(any, s[i..][|t|..], fold); }
      FoldedSlice(s, t, i, fold);
    }
  }
}
