/** Which rules and cron expressions a completion shift accepts, exactly. */
module ShiftAcceptance {
  import opened Text
  import opened Gregorian
  import opened RRule
  import opened RRuleShift
  import opened CronShift
  import opened CompletionShift
  import opened CompletionHistory

  // One number, written without list, range, step or star.
  predicate OneNumber(s: string, lo: int, hi: int) {
    && ',' !in s && '-' !in s && '*' !in s && '/' !in s
    && match Atoi(s) case None => false case Some(n) => lo <= n <= hi
  }

  // Main result: a cron expression is accepted, whatever the day, if and only if minute and hour
  // are one number each and the day fields are all stars, a star but for one weekday, a star but
  // for one day of the month, or one date.
  lemma CronAcceptedExactly(expr: string, a: Day)
    ensures ShiftCron(expr, a).Some? <==>
            var f := Fields(expr);
            && |f| == 5 && OneNumber(f[0], 0, 59) && OneNumber(f[1], 0, 23)
            && (|| (f[2] == "*" && f[3] == "*" && (f[4] == "*" || OneNumber(f[4], 0, 7)))
                || (OneNumber(f[2], 1, 31) && (f[3] == "*" || OneNumber(f[3], 1, 12)) && f[4] == "*"))
  {
    TrimmedFields(expr);
  }

  // A rule with one of four frequencies, at most one weekday, month and day of the month, and no
  // other limit.
  predicate OneInterval(r: Rule) {
    && (r.freq == Some(Daily) || r.freq == Some(Weekly) || r.freq == Some(Monthly) || r.freq == Some(Yearly))
    && r.interval >= 0 && r.count == 0 && !r.until
    && KeyBySetPos !in r.lists && KeyByYearDay !in r.lists && KeyByWeekNo !in r.lists && KeyByHour !in r.lists
    && KeyByMinute !in r.lists && KeyBySecond !in r.lists && KeyByEaster !in r.lists
    && (r.byDay == [] || r.byDay == [WeekdayNum(r.byDay[0].weekday, 0)])
    && (KeyByMonth in r.lists ==> |r.lists[KeyByMonth]| <= 1)
    && (KeyByMonthDay in r.lists ==> |r.lists[KeyByMonthDay]| <= 1)
  }

  lemma OneIntervalIsShiftable(r: Rule)
    ensures Shiftable(r) <==> OneInterval(r)
  {
    if |r.byDay| == 1 { assert r.byDay == [r.byDay[0]]; }
  }

  // Main result: a rule is accepted, whatever the day, if and only if it is one line without
  // DTSTART in any case that reads as a rule of one interval: writing the new day never fails.
  lemma RuleAcceptedExactly(rule: string, a: Day)
    ensures ShiftRRule(rule, a).Some? <==>
            && '\n' !in TrimSpace(rule) && !Contains(ToUpper(TrimSpace(rule)), "DTSTART")
            && ParseRule(rule).Some? && OneInterval(ParseRule(rule).value)
  {
    var raw := TrimSpace(rule);
    TrimSpaceTrims(rule);
    TrimSpaceFixes(raw);
    assert ParseRule(raw) == ParseRule(rule);
    if ParseRule(rule).Some? { OneIntervalIsShiftable(ParseRule(rule).value); }
    if '\n' !in raw && !HasDtstart(raw) && ParseRule(rule).Some? && Shiftable(ParseRule(rule).value) {
      var r := ParseRule(rule).value;
      var ps := PartsOfText(raw, r);
      ShiftOfParts(rule, ps, r, a);
    }
  }

  // ---------- the whole completion shift ----------

  predicate Filled(field: Option<string>) { field.Some? && !Blank(field.value) }

  // A number of one or two digits without sign.
  predicate ShortNumber(s: string) { 1 <= |s| <= 2 && forall i :: 0 <= i < |s| ==> '0' <= s[i] <= '9' }

  predicate CronIsShifted(expr: string) {
    var f := Fields(expr);
    && |f| == 5 && ShortNumber(f[0]) && ShortNumber(f[1]) && OneNumber(f[0], 0, 59) && OneNumber(f[1], 0, 23)
    && (|| (f[2] == "*" && f[3] == "*" && (f[4] == "*" || OneNumber(f[4], 0, 7)))
        || (OneNumber(f[2], 1, 31) && (f[3] == "*" || OneNumber(f[3], 1, 12)) && f[4] == "*"))
  }

  // The rule is accepted for the day, and what is written for it is in bounds and occurs again.
  ghost predicate RuleIsShifted(rule: string, anchor: Instant, completedAt: Instant) {
    && '\n' !in TrimSpace(rule) && !Contains(ToUpper(TrimSpace(rule)), "DTSTART")
    && ParseRule(rule).Some? && OneInterval(ParseRule(rule).value)
    && ShiftRRule(rule, completedAt.day).Some?
    && var r := ParseRule(ShiftRRule(rule, completedAt.day).value);
       && r.Some? && Plain(r.value)
       && (forall m :: m in ByMonth(r.value) ==> 1 <= m <= 12)
       && (forall d :: d in ByMonthDay(r.value) ==> 1 <= d <= 31 || -31 <= d <= -1)
       && exists u: Instant :: Before(completedAt, u) && Occurs(r.value, anchor, u)
  }

  lemma FilledIsSet(field: Option<string>)
    ensures Filled(field) <==> FieldSet(field)
  {
    if field.Some? { BlankTrims(field.value); }
  }

  lemma ShortIsRead(s: string, lo: int, hi: int)
    requires OneNumber(s, lo, hi)
    ensures ShortNumber(s) <==> Digits(s) && |s| <= 2
  {
    AtoiHasDigits(s);
  }

  lemma CronDecides(expr: string, completedAt: Instant, s: Option<Shifting>)
    requires CronShifting(expr, completedAt, s)
    ensures s.Some? <==> CronIsShifted(expr)
  {
    CronAcceptedExactly(expr, completedAt.day);
    if ShiftCron(expr, completedAt.day).Some? {
      var f := Fields(expr);
      ClockDecides(expr, completedAt.day);
      ShortIsRead(f[0], 0, 59);
      ShortIsRead(f[1], 0, 23);
    }
  }

  lemma RuleDecides(rule: string, clock: Instant, completedAt: Instant, anchor: Instant, s: Option<Shifting>)
    requires RuleShifting(rule, clock, completedAt, s) && OnDayAtClock(anchor, completedAt.day, clock)
    ensures s.Some? <==> RuleIsShifted(rule, anchor, completedAt)
  {
    RuleAcceptedExactly(rule, completedAt.day);
    WholeSeconds(clock);
    assert anchor == CompletionAnchor(completedAt, clock);
  }

  // Main result: a completion is accepted if and only if exactly one of the two fields holds more
  // than white space, and that one is a cron expression of one of four series at one short minute
  // and hour, or a rule of one interval whose shifted form is in bounds and occurs again.
  lemma CompletionAcceptedExactly(
      cron: Option<string>, rule: Option<string>, clock: Instant, completedAt: Instant, anchor: Instant,
      s: Option<Shifting>)
    requires Shifts(cron, rule, clock, completedAt, s) && OnDayAtClock(anchor, completedAt.day, clock)
    ensures s.Some? <==>
            || (Filled(cron) && !Filled(rule) && CronIsShifted(cron.value))
            || (Filled(rule) && !Filled(cron) && RuleIsShifted(rule.value, anchor, completedAt))
  {
    FilledIsSet(cron);
    FilledIsSet(rule);
    if FieldSet(cron) && !FieldSet(rule) { CronDecides(cron.value, completedAt, s); }
    if FieldSet(rule) && !FieldSet(cron) { RuleDecides(rule.value, clock, completedAt, anchor, s); }
  }
}
