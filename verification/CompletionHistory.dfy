/** A series over all its completions: each of them is answered as if it were the first, and the last
    accepted one decides what is stored. */
module CompletionHistory {
  import opened Text
  import opened Gregorian
  import opened CronRule
  import opened RRule
  import opened RuleRewrite
  import opened Completions
  import opened RRuleShift
  import opened CronShift
  import opened CompletionShift

  // ---------- the texts ----------

  // After any sequence of completions the cron expression is that of one shift by the last day.
  lemma CronCompletions(expr: string, days: seq<Day>)
    requires days != []
    ensures ShiftAll(ShiftCron, expr, days) == ShiftCron(expr, days[|days| - 1])
  {
    LastShiftDecidesCron();
    OnlyLastCompletionCounts(ShiftCron, expr, days);
  }

  // And so is the rule.
  lemma RuleCompletions(rule: string, days: seq<Day>)
    requires days != []
    ensures ShiftAll(ShiftRRule, rule, days) == ShiftRRule(rule, days[|days| - 1])
  {
    LastShiftDecidesRRule();
    OnlyLastCompletionCounts(ShiftRRule, rule, days);
  }

  // ---------- the stored parent ----------

  // The columns of the parent that a completion writes.
  datatype Parent = Parent(cron: Option<string>, rule: Option<string>, start: Instant)

  // One completion and what shiftRecurrenceFromCompletion answered.
  datatype Completion = Completion(clock: Instant, at: Instant, answer: Option<Shifting>)

  ghost predicate Answers(parent: Parent, c: Completion) {
    Shifts(parent.cron, parent.rule, c.clock, c.at, c.answer)
  }

  // MarkTaskAsDone writes the anchor and the field that was shifted; a refusal writes nothing.
  function Stored(parent: Parent, answer: Option<Shifting>): Parent {
    match answer
    case None => parent
    case Some(s) =>
      Parent(if s.cron.Some? then s.cron else parent.cron, if s.rule.Some? then s.rule else parent.rule, s.anchor)
  }

  ghost predicate History(parent: Parent, cs: seq<Completion>)
    decreases |cs|
  {
    cs == [] || (Answers(parent, cs[0]) && History(Stored(parent, cs[0].answer), cs[1..]))
  }

  function After(parent: Parent, cs: seq<Completion>): Parent
    decreases |cs|
  {
    if cs == [] then parent else After(Stored(parent, cs[0].answer), cs[1..])
  }

  // Two fields that every completion treats alike.
  ghost predicate SameCron(expr: string, other: string) {
    forall a :: ShiftCron(expr, a) == ShiftCron(other, a)
  }

  ghost predicate SameRule(rule: string, other: string) {
    forall a :: ShiftRRule(rule, a) == ShiftRRule(other, a)
  }

  lemma ShiftedIsSameCron(expr: string, a: Day)
    requires ShiftCron(expr, a).Some?
    ensures SameCron(ShiftCron(expr, a).value, expr)
  {
    LastShiftDecidesCron();
  }

  lemma ShiftedIsSameRule(rule: string, a: Day)
    requires ShiftRRule(rule, a).Some?
    ensures SameRule(ShiftRRule(rule, a).value, rule)
  {
    LastShiftDecidesRRule();
  }

  lemma AcceptedCronIsSet(expr: string, a: Day)
    requires ShiftCron(expr, a).Some?
    ensures FieldSet(Some(expr))
  {
    assert TrimSpace(expr) == "" ==> Fields(TrimSpace(expr)) == [];
  }

  lemma AcceptedRuleIsSet(rule: string, a: Day)
    requires ShiftRRule(rule, a).Some?
    ensures FieldSet(Some(rule))
  {
  }

  lemma SameCronShifts(
      expr: string, other: string, rule: Option<string>, clock: Instant, at: Instant, s: Option<Shifting>)
    requires SameCron(expr, other) && FieldSet(Some(expr)) && FieldSet(Some(other))
    ensures Shifts(Some(expr), rule, clock, at, s) <==> Shifts(Some(other), rule, clock, at, s)
  {
    assert ShiftCron(expr, at.day) == ShiftCron(other, at.day);
    assert CronShifting(expr, at, s) <==> CronShifting(other, at, s);
  }

  lemma SameRuleShifts(
      cron: Option<string>, rule: string, other: string, clock: Instant, at: Instant, s: Option<Shifting>)
    requires SameRule(rule, other) && FieldSet(Some(rule)) && FieldSet(Some(other))
    ensures Shifts(cron, Some(rule), clock, at, s) <==> Shifts(cron, Some(other), clock, at, s)
  {
    assert ShiftRRule(rule, at.day) == ShiftRRule(other, at.day);
    assert RuleShifting(rule, clock, at, s) <==> RuleShifting(other, clock, at, s);
  }

  // A completion is answered from the stored series as from the one before it.
  lemma AnswersAgain(parent: Parent, first: Completion, c: Completion)
    requires Answers(parent, first)
    ensures Answers(Stored(parent, first.answer), c) <==> Answers(parent, c)
  {
    if first.answer.Some? {
      var a := first.at.day;
      if FieldSet(parent.cron) {
        var expr := parent.cron.value;
        var text := ShiftCron(expr, a).value;
        ShiftedIsSameCron(expr, a);
        AcceptedCronIsSet(text, a);
        SameCronShifts(text, expr, parent.rule, c.clock, c.at, c.answer);
      } else {
        var rule := parent.rule.value;
        var text := ShiftRRule(rule, a).value;
        ShiftedIsSameRule(rule, a);
        AcceptedRuleIsSet(text, a);
        SameRuleShifts(parent.cron, text, rule, c.clock, c.at, c.answer);
      }
    }
  }

  // Main result: whatever completions came before, refused ones included, each is answered as if
  // it were the first: acceptance, anchor, text and next start depend on the original series only.
  lemma {:induction false} HistoryIsForgotten(parent: Parent, cs: seq<Completion>)
    requires History(parent, cs)
    ensures forall i :: 0 <= i < |cs| ==> Answers(parent, cs[i])
    decreases |cs|
  {
    if cs != [] {
      var next := Stored(parent, cs[0].answer);
      HistoryIsForgotten(next, cs[1..]);
      forall i | 0 <= i < |cs| ensures Answers(parent, cs[i]) {
        if i > 0 {
          assert Answers(next, cs[1..][i - 1]);
          AnswersAgain(parent, cs[0], cs[i]);
        }
      }
    }
  }

  // The last answer that is not a refusal.
  function LastAccepted(cs: seq<Completion>): Option<Shifting>
    decreases |cs|
  {
    if cs == [] then None
    else
      var last := cs[|cs| - 1].answer;
      if last.Some? then last else LastAccepted(cs[..|cs| - 1])
  }

  lemma {:induction false} LastAcceptedCons(c: Completion, cs: seq<Completion>)
    ensures LastAccepted([c] + cs) == if LastAccepted(cs).Some? then LastAccepted(cs) else c.answer
    decreases |cs|
  {
    var all := [c] + cs;
    if cs == [] {
      assert all[..0] == [];
    } else {
      assert all[..|all| - 1] == [c] + cs[..|cs| - 1] && all[|all| - 1] == cs[|cs| - 1];
      LastAcceptedCons(c, cs[..|cs| - 1]);
    }
  }

  // Which field a completion writes.
  lemma WrittenField(parent: Parent, c: Completion)
    requires Answers(parent, c) && c.answer.Some?
    ensures FieldSet(parent.cron) != FieldSet(parent.rule)
    ensures FieldSet(parent.cron) <==> c.answer.value.cron.Some?
    ensures FieldSet(parent.rule) <==> c.answer.value.rule.Some?
  {
  }

  lemma StoredTwice(parent: Parent, first: Completion, c: Completion)
    requires Answers(parent, first) && Answers(parent, c) && first.answer.Some? && c.answer.Some?
    ensures Stored(Stored(parent, first.answer), c.answer) == Stored(parent, c.answer)
  {
    WrittenField(parent, first);
    WrittenField(parent, c);
  }

  lemma {:induction false} LastAcceptedAnswers(parent: Parent, cs: seq<Completion>) returns (c: Completion)
    requires forall i :: 0 <= i < |cs| ==> Answers(parent, cs[i])
    requires LastAccepted(cs).Some?
    ensures Answers(parent, c) && c.answer == LastAccepted(cs)
    decreases |cs|
  {
    c := cs[|cs| - 1];
    if c.answer.None? { c := LastAcceptedAnswers(parent, cs[..|cs| - 1]); }
  }

  // Main result: the stored series is the original one, written once by the last accepted
  // completion; refused ones and all earlier ones have left no trace.
  lemma {:induction false} LastAcceptedIsStored(parent: Parent, cs: seq<Completion>)
    requires History(parent, cs)
    ensures After(parent, cs) == Stored(parent, LastAccepted(cs))
    decreases |cs|
  {
    if cs != [] {
      var first, rest := cs[0], cs[1..];
      LastAcceptedIsStored(Stored(parent, first.answer), rest);
      assert [first] + rest == cs;
      LastAcceptedCons(first, rest);
      if first.answer.Some? && LastAccepted(rest).Some? {
        HistoryIsForgotten(Stored(parent, first.answer), rest);
        var c := LastAcceptedAnswers(Stored(parent, first.answer), rest);
        AnswersAgain(parent, first, c);
        StoredTwice(parent, first, c);
      }
    }
  }

  lemma {:induction false} LastAcceptedAt(cs: seq<Completion>, i: nat)
    requires i < |cs| && cs[i].answer.Some? && forall j :: i < j < |cs| ==> cs[j].answer.None?
    ensures LastAccepted(cs) == cs[i].answer
    decreases |cs|
  {
    if i < |cs| - 1 { LastAcceptedAt(cs[..|cs| - 1], i); }
  }

  lemma {:induction false} NoneAccepted(cs: seq<Completion>)
    requires forall i :: 0 <= i < |cs| ==> cs[i].answer.None?
    ensures LastAccepted(cs).None?
    decreases |cs|
  {
    if cs != [] { NoneAccepted(cs[..|cs| - 1]); }
  }

  lemma RefusalsKeepParent(parent: Parent, cs: seq<Completion>)
    requires History(parent, cs) && forall i :: 0 <= i < |cs| ==> cs[i].answer.None?
    ensures After(parent, cs) == parent
  {
    LastAcceptedIsStored(parent, cs);
    NoneAccepted(cs);
  }

  // Main result: after any history the stored start is the day of the last completion that was
  // accepted, at the time of day of the child that was completed then.
  lemma StoredStartIsLastCompletion(parent: Parent, cs: seq<Completion>, i: nat)
    requires History(parent, cs)
    requires i < |cs| && cs[i].answer.Some? && forall j :: i < j < |cs| ==> cs[j].answer.None?
    ensures OnDayAtClock(After(parent, cs).start, cs[i].at.day, cs[i].clock)
  {
    LastAcceptedIsStored(parent, cs);
    LastAcceptedAt(cs, i);
    HistoryIsForgotten(parent, cs);
    assert Answers(parent, cs[i]);
    AnchorIsOnDayAtClock(parent.cron, parent.rule, cs[i].clock, cs[i].at, cs[i].answer.value);
  }

  // ---------- a series that was accepted once ----------

  lemma ClockFieldsKept(f: seq<string>, series: Series, a: Day)
    requires |f| == 5
    ensures ClockReads(AnchoredFields(f, series, a)) <==> ClockReads(f)
  {
  }

  lemma ClockDecides(expr: string, a: Day)
    requires ShiftCron(expr, a).Some?
    ensures CronexprReads(ShiftCron(expr, a).value) <==> ClockReads(Fields(expr))
  {
    var f, series := AcceptedFields(expr, a);
    ClockFieldsKept(f, series, a);
  }

  predicate RepeatsNoKey(rule: Option<string>) {
    FieldSet(rule) ==> ReadParts(RuleParts(rule.value)).Some? && UniqueKeys(ReadParts(RuleParts(rule.value)).value)
  }

  lemma AcceptedAgain(parent: Parent, first: Completion, c: Completion)
    requires Answers(parent, first) && first.answer.Some? && Answers(parent, c) && RepeatsNoKey(parent.rule)
    ensures c.answer.Some?
  {
    WrittenField(parent, first);
    if FieldSet(parent.cron) {
      LastShiftWinsCron(parent.cron.value, first.at.day, c.at.day);
      ClockDecides(parent.cron.value, first.at.day);
      ClockDecides(parent.cron.value, c.at.day);
    } else {
      LastShiftWins(parent.rule.value, first.at.day, c.at.day);
      UniqueKeysAlwaysShift(parent.rule.value, c.clock, c.at);
    }
  }

  // Main result: the check that is made when the mode is stored suffices. A cron expression, or a
  // rule that repeats no key, which passes it is never refused at any later completion.
  lemma CheckedSeriesIsNeverRefused(parent: Parent, check: Completion, cs: seq<Completion>)
    requires Answers(parent, check) && check.answer.Some? && RepeatsNoKey(parent.rule) && History(parent, cs)
    ensures forall i :: 0 <= i < |cs| ==> cs[i].answer.Some?
  {
    HistoryIsForgotten(parent, cs);
    forall i | 0 <= i < |cs| ensures cs[i].answer.Some? {
      AcceptedAgain(parent, check, cs[i]);
    }
  }
}
