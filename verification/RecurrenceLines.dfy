/** RecurrenceToRRule and RRuleToRecurrence: a rule on its way to the calendar's recurrence lines
    and back. */
module RecurrenceLines {
  import opened Text

  const PREFIX := "RRULE:"

  predicate IsRuleLine(line: string) { PREFIX <= ToUpper(TrimSpace(line)) }

  // The rule on one line. The offset is counted on the line as it came, before trimming.
  function RuleOn(line: string): Option<string> {
    if !IsRuleLine(line) then None
    else
      var rule := TrimSpace(line[|PREFIX|..]);
      if rule == "" then None else Some(rule)
  }

  // RecurrenceToRRule
  function RecurrenceToRRule(lines: seq<string>): Option<string> {
    if lines == [] then None
    else match RuleOn(lines[0]) case Some(rule) => Some(rule) case None => RecurrenceToRRule(lines[1..])
  }

  method FirstRule(lines: seq<string>) returns (r: Option<string>)
    ensures r == RecurrenceToRRule(lines)
  {
    var i := 0;
    assert lines[0..] == lines;
    while i < |lines|
      invariant 0 <= i <= |lines|
      invariant RecurrenceToRRule(lines) == RecurrenceToRRule(lines[i..])
    {
      assert lines[i..][1..] == lines[i + 1..];
      var rule := RuleOn(lines[i]);
      if rule.Some? {
        return rule;
      }
      i := i + 1;
    }
    r := None;
  }

  // RRuleToRecurrence
  function RRuleToRecurrence(rrule: string): seq<string> {
    var rule := TrimSpace(rrule);
    if rule == "" then [] else if PREFIX <= ToUpper(rule) then [rule] else [PREFIX + rule]
  }

  // The rule itself, without prefix and surrounding space.
  function Bare(rrule: string): string {
    var rule := TrimSpace(rrule);
    if PREFIX <= ToUpper(rule) then TrimSpace(rule[|PREFIX|..]) else rule
  }

  // The prefix, in any mix of cases.
  predicate IsPrefix(p: string) { ToUpper(p) == PREFIX }

  lemma PrefixShape(p: string)
    requires IsPrefix(p)
    ensures |p| == |PREFIX| && NoSpace(p) && p != ""
  {
    forall i | 0 <= i < |p| ensures !IsSpace(p[i]) {
      assert ToUpper(p)[i] == PREFIX[i];
      assert !IsSpace(PREFIX[i]);
    }
  }

  lemma PrefixIsPrefix()
    ensures IsPrefix(PREFIX)
  {
  }

  lemma UpperPrefix(p: string, s: string)
    ensures ToUpper(p) <= ToUpper(p + s)
  {
    assert forall i :: 0 <= i < |p| ==> ToUpper(p + s)[i] == ToUpper(p)[i];
  }

  lemma PrefixedLine(p: string, rule: string)
    requires IsPrefix(p) && rule != "" && Trimmed(rule)
    ensures RuleOn(p + rule) == Some(rule)
  {
    PrefixShape(p);
    UpperPrefix(p, rule);
    var line := p + rule;
    assert line[0] == p[0] && line[|line| - 1] == rule[|rule| - 1];
    TrimSpaceFixes(line);
    assert line[|p|..] == rule;
    TrimSpaceFixes(rule);
  }

  lemma OwnLine(p: string, rule: string)
    requires p == PREFIX && Trimmed(rule) && p <= ToUpper(rule)
    ensures RuleOn(rule) == var bare := TrimSpace(rule[|p|..]); if bare == "" then None else Some(bare)
  {
    TrimSpaceFixes(rule);
  }

  lemma OneLine(line: string)
    ensures RecurrenceToRRule([line]) == RuleOn(line)
  {
    var rest: seq<string> := [line][1..];
    assert rest == [] && RecurrenceToRRule(rest) == None;
  }

  // Main result: what is written for a rule reads back as the bare rule, and nothing is read back
  // exactly when there is no rule.
  lemma RuleReadsBack(rrule: string)
    ensures RecurrenceToRRule(RRuleToRecurrence(rrule)) == if Bare(rrule) == "" then None else Some(Bare(rrule))
  {
    var rule := TrimSpace(rrule);
    TrimSpaceTrims(rrule);
    if rule == "" {
    } else if PREFIX <= ToUpper(rule) {
      OwnLine(PREFIX, rule);
      OneLine(rule);
    } else {
      PrefixIsPrefix();
      PrefixedLine(PREFIX, rule);
      OneLine(PREFIX + rule);
    }
  }

  predicate AllSpace(s: string) { forall i :: 0 <= i < |s| ==> IsSpace(s[i]) }

  lemma {:induction false} SpaceTrims(space: string, s: string)
    requires AllSpace(space) && s != "" && Trimmed(s)
    ensures TrimSpace(space + s) == s
  {
    if space == "" {
      assert space + s == s;
      TrimSpaceFixes(s);
    } else {
      assert (space + s)[1..] == space[1..] + s;
      SpaceTrims(space[1..], s);
    }
  }

  lemma TrimmedTail(p: string, rule: string, n: nat)
    requires NoSpace(p) && n < |p| && rule != "" && Trimmed(rule)
    ensures TrimSpace(p[n..] + rule) == p[n..] + rule && |p[n..] + rule| > |rule|
  {
    var s := p[n..] + rule;
    assert s[0] == p[n] && s[|s| - 1] == rule[|rule| - 1];
    TrimSpaceFixes(s);
  }

  // A line with space in front of the prefix, written in any case, is recognised and cut at the
  // wrong place: the rule read from it is the one written if and only if there is no such space.
  lemma LeadingSpaceShiftsTheRule(space: string, p: string, rule: string)
    requires AllSpace(space) && IsPrefix(p) && rule != "" && Trimmed(rule)
    ensures RuleOn(space + (p + rule)).Some?
    ensures RuleOn(space + (p + rule)) == Some(rule) <==> space == ""
  {
    var line := space + (p + rule);
    PrefixShape(p);
    UpperPrefix(p, rule);
    assert (p + rule)[0] == p[0] && (p + rule)[|p + rule| - 1] == rule[|rule| - 1];
    SpaceTrims(space, p + rule);
    var n := |space|;
    if n == 0 {
      assert line == p + rule;
      PrefixedLine(p, rule);
    } else if n <= |p| {
      assert line[|p|..] == p[|p| - n..] + rule;
      TrimmedTail(p, rule, |p| - n);
    } else {
      assert line[|p|..] == space[|p|..] + (p + rule);
      SpaceTrims(space[|p|..], p + rule);
    }
  }
}
