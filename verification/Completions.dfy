/** Series that are re-anchored at every completion, for any way of shifting a rule's text. */
module Completions {
  import opened Text
  import opened Gregorian

  type Shift = (string, Day) -> Option<string>

  // Whatever is accepted once is accepted for every day, and the last day decides.
  ghost predicate LastShiftDecides(f: Shift) {
    forall s, a, b :: f(s, a).Some? ==> f(s, b).Some? && f(f(s, a).value, b) == f(s, b)
  }

  function ShiftAll(f: Shift, rule: string, days: seq<Day>): Option<string>
    decreases |days|
  {
    if days == [] then Some(rule)
    else match f(rule, days[0]) case None => None case Some(next) => ShiftAll(f, next, days[1..])
  }

  // After any sequence of completions the series depends on its first text and the last day.
  lemma {:induction false} OnlyLastCompletionCounts(f: Shift, rule: string, days: seq<Day>)
    requires LastShiftDecides(f) && days != []
    ensures ShiftAll(f, rule, days) == f(rule, days[|days| - 1])
    decreases |days|
  {
    var last := days[|days| - 1];
    assert f(rule, last).Some? ==> f(rule, days[0]).Some?;
    if f(rule, days[0]).Some? {
      var next := f(rule, days[0]).value;
      assert f(next, last) == f(rule, last);
      if |days| == 1 {
        assert ShiftAll(f, next, days[1..]) == Some(next);
      } else {
        OnlyLastCompletionCounts(f, next, days[1..]);
      }
    }
  }
}
