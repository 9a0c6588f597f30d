/** replaceRRuleParts: overwriting parts of a rule's text, and the proof that it commutes with
    reading the text as a list of keyed parts. */
module RuleRewrite {
  import opened Text
  import opened RRule

  // A part read as an upper-case key and the text after the first `=`.
  datatype Keyed = Keyed(key: string, value: string)

  function ReadPart(rawPart: string): Option<Keyed> {
    var part := TrimSpace(rawPart);
    var n := CutAt(part, '=');
    var key := TrimSpace(part[..n]);
    if n == |part| || key == "" then None else Some(Keyed(ToUpper(key), part[n + 1..]))
  }

  function ReadParts(parts: seq<string>): Option<seq<Keyed>> {
    if parts == [] then Some([])
    else match ReadPart(parts[0])
      case None => None
      case Some(p) => match ReadParts(parts[1..]) case None => None case Some(ps) => Some([p] + ps)
  }

  datatype Rewritten = Rewritten(out: seq<string>, left: map<string, string>)

  function Written(p: Keyed, rawPart: string, repl: map<string, string>): string {
    if p.key in repl then p.key + "=" + repl[p.key] else TrimSpace(rawPart)
  }

  // Each requested key overwrites the first part that has it; left are the keys not met.
  function RewriteParts(parts: seq<string>, repl: map<string, string>): Option<Rewritten> {
    if parts == [] then Some(Rewritten([], repl))
    else match ReadPart(parts[0])
      case None => None
      case Some(p) => Prepend([Written(p, parts[0], repl)], RewriteParts(parts[1..], repl - {p.key}))
  }

  function Prepend(out: seq<string>, rest: Option<Rewritten>): Option<Rewritten> {
    match rest case None => None case Some(r) => Some(Rewritten(out + r.out, r.left))
  }

  // replaceRRuleParts
  function ReplaceRRuleParts(raw: string, repl: map<string, string>): Option<string> {
    match RewriteParts(RuleParts(raw), repl)
    case None => None
    case Some(r) => if r.left != map[] then None else Some(Join(r.out, ";"))
  }

  lemma RewriteStep(out: seq<string>, parts: seq<string>, i: nat, repl: map<string, string>)
    requires i < |parts| && ReadPart(parts[i]).Some?
    ensures var p := ReadPart(parts[i]).value;
            Prepend(out, RewriteParts(parts[i..], repl)) ==
            Prepend(out + [Written(p, parts[i], repl)], RewriteParts(parts[i + 1..], repl - {p.key}))
  {
    var p := ReadPart(parts[i]).value;
    assert parts[i..][1..] == parts[i + 1..];
    var rest := RewriteParts(parts[i + 1..], repl - {p.key});
    if rest.Some? {
      var now := [Written(p, parts[i], repl)];
      assert out + (now + rest.value.out) == out + now + rest.value.out;
    }
  }

  lemma PrependNothing(rest: Option<Rewritten>)
    ensures Prepend([], rest) == rest
  {
    if rest.Some? { assert [] + rest.value.out == rest.value.out; }
  }

  lemma RewriteStops(parts: seq<string>, i: nat, repl: map<string, string>)
    requires i <= |parts|
    ensures i == |parts| ==> RewriteParts(parts[i..], repl) == Some(Rewritten([], repl))
    ensures i < |parts| && ReadPart(parts[i]).None? ==> RewriteParts(parts[i..], repl).None?
  {
    assert i < |parts| ==> parts[i..][0] == parts[i];
  }

  lemma NothingRemoved(repl: map<string, string>, key: string)
    ensures key !in repl ==> repl - {key} == repl
  {
  }

  method ReplaceParts(raw: string, requested: map<string, string>) returns (text: string, ok: bool)
    ensures ReplaceRRuleParts(raw, requested) == if ok then Some(text) else None
  {
    var repl := requested;
    var parts := RuleParts(raw);
    var out: seq<string> := [];
    var i := 0;
    ghost var goal := RewriteParts(parts, requested);
    PrependNothing(goal);
    assert parts[0..] == parts;
    while i < |parts|
      invariant 0 <= i <= |parts|
      invariant goal == Prepend(out, RewriteParts(parts[i..], repl))
    {
      var read := ReadPart(parts[i]);
      RewriteStops(parts, i, repl);
      if read.None? {
        return "", false;
      }
      RewriteStep(out, parts, i, repl);
      var upper := read.value.key;
      NothingRemoved(repl, upper);
      if upper in repl {
        out := out + [upper + "=" + repl[upper]];
        repl := repl - {upper};
      } else {
        out := out + [TrimSpace(parts[i])];
      }
      i := i + 1;
    }
    RewriteStops(parts, i, repl);
    assert out + [] == out;
    if repl != map[] {
      return "", false;
    }
    text, ok := Join(out, ";"), true;
  }

  // ---------- commuting with reading ----------

  function Keys(ps: seq<Keyed>): set<string> {
    set i | 0 <= i < |ps| :: ps[i].key
  }

  predicate UniqueKeys(ps: seq<Keyed>) {
    forall i, j :: 0 <= i < j < |ps| ==> ps[i].key != ps[j].key
  }

  // The list with the first part of each requested key overwritten.
  function OverwriteFirst(ps: seq<Keyed>, repl: map<string, string>): (r: seq<Keyed>)
    ensures |r| == |ps|
  {
    if ps == [] then []
    else
      var p := if ps[0].key in repl then Keyed(ps[0].key, repl[ps[0].key]) else ps[0];
      [p] + OverwriteFirst(ps[1..], repl - {ps[0].key})
  }

  // With unique keys exactly the requested keys change, in place.
  lemma {:induction false} OverwriteUnique(ps: seq<Keyed>, repl: map<string, string>)
    requires UniqueKeys(ps)
    ensures forall i :: 0 <= i < |ps| ==>
              OverwriteFirst(ps, repl)[i] ==
              if ps[i].key in repl then Keyed(ps[i].key, repl[ps[i].key]) else ps[i]
  {
    if ps != [] {
      OverwriteUnique(ps[1..], repl - {ps[0].key});
      assert forall i :: 1 <= i < |ps| ==> ps[i] == ps[1..][i - 1] && ps[i].key != ps[0].key;
    }
  }

  lemma KeysCons(ps: seq<Keyed>)
    requires ps != []
    ensures Keys(ps) == {ps[0].key} + Keys(ps[1..])
  {
    forall k | k in Keys(ps) ensures k in {ps[0].key} + Keys(ps[1..]) {
      var i :| 0 <= i < |ps| && ps[i].key == k;
      if i > 0 { assert ps[1..][i - 1].key == k; }
    }
    forall k | k in {ps[0].key} + Keys(ps[1..]) ensures k in Keys(ps) {
      if k != ps[0].key {
        var i :| 0 <= i < |ps[1..]| && ps[1..][i].key == k;
        assert ps[i + 1].key == k;
      }
    }
  }

  lemma {:induction false} RewriteLeaves(parts: seq<string>, repl: map<string, string>)
    ensures RewriteParts(parts, repl).Some? <==> ReadParts(parts).Some?
    ensures ReadParts(parts).Some? ==>
              RewriteParts(parts, repl).value.left.Keys == repl.Keys - Keys(ReadParts(parts).value)
  {
    if parts != [] && ReadPart(parts[0]).Some? {
      var p := ReadPart(parts[0]).value;
      RewriteLeaves(parts[1..], repl - {p.key});
      if ReadParts(parts).Some? {
        var ps := ReadParts(parts).value;
        assert ps[1..] == ReadParts(parts[1..]).value;
        KeysCons(ps);
      }
    }
  }

  lemma NothingOutside(a: set<string>, b: set<string>)
    ensures a - b == {} <==> a <= b
  {
    assert forall k :: k in a && k !in b <==> k in a - b;
  }

  // It fails exactly when a part has no key or a requested key is absent.
  lemma RewriteFailsExactly(raw: string, repl: map<string, string>)
    ensures ReplaceRRuleParts(raw, repl).Some? <==>
            ReadParts(RuleParts(raw)).Some? && repl.Keys <= Keys(ReadParts(RuleParts(raw)).value)
  {
    RewriteLeaves(RuleParts(raw), repl);
    if ReadParts(RuleParts(raw)).Some? {
      var left := RewriteParts(RuleParts(raw), repl).value.left;
      assert left == map[] <==> left.Keys == {};
      NothingOutside(repl.Keys, Keys(ReadParts(RuleParts(raw)).value));
    }
  }

  // A value that stays in its part and keeps its last character when the part is trimmed.
  predicate FitsPart(value: string) {
    ';' !in value && (value != "" ==> !IsSpace(value[|value| - 1]))
  }

  predicate AllFit(repl: map<string, string>) {
    forall k :: k in repl ==> FitsPart(repl[k])
  }

  lemma UpperKeepsShape(s: string)
    ensures ToUpper(ToUpper(s)) == ToUpper(s)
    ensures Trimmed(s) ==> Trimmed(ToUpper(s))
    ensures forall c :: c in ";=" && c !in s ==> c !in ToUpper(s)
  {
  }

  // Reading back a part that was written with a key read before.
  lemma ReadsWritten(rawPart: string, value: string)
    requires ReadPart(rawPart).Some? && FitsPart(value)
    ensures var p := ReadPart(rawPart).value;
            ReadPart(p.key + "=" + value) == Some(Keyed(p.key, value))
  {
    var part := TrimSpace(rawPart);
    var cut := part[..CutAt(part, '=')];
    var key := TrimSpace(cut);
    TrimSpaceTrims(cut);
    TrimSpaceKeeps(cut);
    UpperKeepsShape(key);
    var upper := ToUpper(key);
    var text := upper + "=" + value;
    assert text[0] == upper[0] && text[|text| - 1] == if value == "" then '=' else value[|value| - 1];
    TrimSpaceFixes(text);
    CutAtFirst(upper, value, '=');
    assert text[..|upper|] == upper && text[|upper| + 1..] == value;
    TrimSpaceFixes(upper);
  }

  lemma ReadsTrimmed(rawPart: string)
    ensures ReadPart(TrimSpace(rawPart)) == ReadPart(rawPart)
  {
    TrimSpaceTrims(rawPart);
    TrimSpaceFixes(TrimSpace(rawPart));
  }

  predicate NoneHas(ps: seq<string>, c: char) {
    forall i :: 0 <= i < |ps| ==> c !in ps[i]
  }

  lemma WrittenStaysOnePart(rawPart: string, repl: map<string, string>)
    requires ReadPart(rawPart).Some? && ';' !in rawPart && AllFit(repl)
    ensures ';' !in Written(ReadPart(rawPart).value, rawPart, repl)
  {
    var part := TrimSpace(rawPart);
    var cut := part[..CutAt(part, '=')];
    TrimSpaceKeeps(rawPart);
    TrimSpaceKeeps(cut);
    assert ';' !in cut;
    UpperKeepsShape(TrimSpace(cut));
  }

  lemma {:induction false} RewriteReads(parts: seq<string>, repl: map<string, string>)
    requires ReadParts(parts).Some? && AllFit(repl) && NoneHas(parts, ';')
    ensures RewriteParts(parts, repl).Some?
    ensures var out := RewriteParts(parts, repl).value.out;
            && NoneHas(out, ';') && |out| == |parts|
            && ReadParts(out) == Some(OverwriteFirst(ReadParts(parts).value, repl))
  {
    if parts != [] {
      var p := ReadPart(parts[0]).value;
      RewriteReads(parts[1..], repl - {p.key});
      var now := Written(p, parts[0], repl);
      WrittenStaysOnePart(parts[0], repl);
      ReadsTrimmed(parts[0]);
      if p.key in repl { ReadsWritten(parts[0], repl[p.key]); }
      var rest := RewriteParts(parts[1..], repl - {p.key}).value.out;
      assert ([now] + rest)[1..] == rest;
      assert ReadParts(parts).value[1..] == ReadParts(parts[1..]).value;
    }
  }

  // Reading the rewritten text gives the parts that were read with the requested keys
  // overwritten, in the same order.
  lemma RewriteCommutesWithReading(raw: string, repl: map<string, string>)
    requires AllFit(repl) && ReplaceRRuleParts(raw, repl).Some?
    ensures ReadParts(RuleParts(raw)).Some?
    ensures ReadParts(Split(ReplaceRRuleParts(raw, repl).value, ';')) ==
            Some(OverwriteFirst(ReadParts(RuleParts(raw)).value, repl))
  {
    var parts := RuleParts(raw);
    RewriteLeaves(parts, repl);
    RewriteReads(parts, repl);
    SplitJoin(RewriteParts(parts, repl).value.out, ';');
  }
}
