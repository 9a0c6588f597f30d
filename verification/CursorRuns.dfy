/** Any number of sync runs on one binding, scheduled and forced, interleaved with each other's
    reads and writes of the binding row. */
module CursorRuns {
  import opened Text
  import opened ImportStore
  import opened Cursor

  // A sync token together with the events the calendar had returned on the pages leading to it.
  datatype Token = Token(text: string, seen: set<Event>)

  datatype Stored = Stored(token: Option<Token>, status: BindingStatus, syncAttempts: int)

  // binding is the copy the run works on, delivered the events of the current pass over the
  // pages (with those behind the token it started from), todo the events of the current page.
  datatype SyncRun =
    | Off
    | On(binding: Stored, delivered: set<Event>, todo: seq<Event>, last: Option<string>, started: Option<Token>)

  datatype State = State(row: Stored, applied: set<Event>, runs: map<int, SyncRun>)

  datatype Step =
    | Begin(r: int)
    | WriteSummary(r: int)
    | ListPage(r: int, events: seq<Event>, last: Option<string>)
    | Invalid(r: int)
    | Apply(r: int)
    | Complete(r: int)
    | Fail(r: int)
    | Crash(r: int)

  function SeenBy(t: Option<Token>): set<Event> {
    if t.Some? then t.value.seen else {}
  }

  predicate Running(s: State, r: int) { r in s.runs && s.runs[r].On? }

  // last is None while pages are still to come, and the new token's text on the last page.
  predicate Can(s: State, step: Step) {
    match step
    case Begin(r) => r in s.runs && s.runs[r].Off?
    case WriteSummary(r) => Running(s, r)
    case ListPage(r, _, _) => Running(s, r) && s.runs[r].todo == [] && s.runs[r].last.None?
    case Invalid(r) => Running(s, r) && s.runs[r].todo == [] && s.runs[r].last.None?
    case Apply(r) => Running(s, r) && s.runs[r].todo != []
    case Complete(r) => Running(s, r) && s.runs[r].todo == [] && s.runs[r].last.Some?
    case Fail(r) => Running(s, r)
    case Crash(r) => Running(s, r)
  }

  function Completed(run: SyncRun): Stored
    requires run.On? && run.last.Some?
  {
    var token := if run.last.value != "" then Some(Token(run.last.value, run.delivered)) else run.binding.token;
    Stored(token, Active, 0)
  }

  function Do(s: State, step: Step): State
    requires Can(s, step)
  {
    match step
    case Begin(r) => s.(runs := s.runs[r := On(s.row, SeenBy(s.row.token), [], None, s.row.token)])
    case WriteSummary(r) => s.(row := s.runs[r].binding)
    case ListPage(r, events, last) =>
      var run := s.runs[r];
      s.(runs := s.runs[r := run.(todo := events, last := last, delivered := run.delivered + SetOf(events))])
    case Invalid(r) =>
      var run := s.runs[r];
      s.(row := s.row.(token := None),
         runs := s.runs[r := run.(binding := run.binding.(token := None), delivered := {}, started := None)])
    case Apply(r) =>
      var run := s.runs[r];
      s.(applied := s.applied + {run.todo[0]}, runs := s.runs[r := run.(todo := run.todo[1..])])
    case Complete(r) => s.(row := Completed(s.runs[r]), runs := s.runs[r := Off])
    case Fail(r) =>
      var b := s.runs[r].binding;
      s.(row := b.(status := InError, syncAttempts := b.syncAttempts + 1), runs := s.runs[r := Off])
    case Crash(r) => s.(runs := s.runs[r := Off])
  }

  predicate CanDoAll(s: State, steps: seq<Step>)
    decreases |steps|
  {
    steps == [] || (Can(s, steps[0]) && CanDoAll(Do(s, steps[0]), steps[1..]))
  }

  function DoAll(s: State, steps: seq<Step>): State
    requires CanDoAll(s, steps)
    decreases |steps|
  {
    if steps == [] then s else DoAll(Do(s, steps[0]), steps[1..])
  }

  // ---------- no change is ever lost ----------

  predicate TokenSafe(s: State, t: Option<Token>) { SeenBy(t) <= s.applied }

  predicate RunSafe(s: State, run: SyncRun) {
    run.On? ==>
      && TokenSafe(s, run.binding.token) && run.binding.token == run.started
      && run.delivered <= s.applied + SetOf(run.todo) && SeenBy(run.started) <= run.delivered
  }

  predicate Safe(s: State) {
    TokenSafe(s, s.row.token) && forall r :: r in s.runs ==> RunSafe(s, s.runs[r])
  }

  lemma HeadAndTail(todo: seq<Event>)
    requires todo != []
    ensures SetOf(todo) == {todo[0]} + SetOf(todo[1..])
  {
    assert forall i :: 1 <= i < |todo| ==> todo[i] == todo[1..][i - 1];
    forall x | x in {todo[0]} + SetOf(todo[1..]) ensures x in SetOf(todo) {
      if x != todo[0] {
        var i :| 0 <= i < |todo[1..]| && todo[1..][i] == x;
        assert todo[i + 1] == x;
      }
    }
  }

  lemma StepIsSafe(s: State, step: Step)
    requires Safe(s) && Can(s, step)
    ensures Safe(Do(s, step))
  {
    var t := Do(s, step);
    assert RunSafe(s, if step.r in s.runs then s.runs[step.r] else Off);
    if step.Apply? { HeadAndTail(s.runs[step.r].todo); }
    forall r | r in t.runs ensures RunSafe(t, t.runs[r]) {
      assert RunSafe(s, s.runs[r]);
    }
  }

  predicate Fresh(s: State) {
    s.row.token.None? && forall r :: r in s.runs ==> s.runs[r].Off?
  }

  // In every reachable state, whatever failed, restarted or ran at the same time, all events the
  // calendar had returned on the pages leading to the stored token have been applied.
  lemma {:induction false} StoredTokenHidesNothing(s0: State, steps: seq<Step>)
    requires Safe(s0) && CanDoAll(s0, steps)
    ensures Safe(DoAll(s0, steps)) && SeenBy(DoAll(s0, steps).row.token) <= DoAll(s0, steps).applied
    decreases |steps|
  {
    if steps != [] {
      StepIsSafe(s0, steps[0]);
      StoredTokenHidesNothing(Do(s0, steps[0]), steps[1..]);
    }
  }

  lemma FreshIsSafe(s: State)
    requires Fresh(s)
    ensures Safe(s)
  {
  }

  lemma NoChangeIsLost(s0: State, steps: seq<Step>)
    requires Fresh(s0) && CanDoAll(s0, steps)
    ensures SeenBy(DoAll(s0, steps).row.token) <= DoAll(s0, steps).applied
  {
    FreshIsSafe(s0);
    StoredTokenHidesNothing(s0, steps);
  }

  // The only step that stores a token the run did not start from is a completed listing; a
  // failure stores the token the run started from, which is none after a restart.
  lemma OnlyCompletionMovesTheToken(s: State, step: Step)
    requires Safe(s) && Can(s, step)
    ensures var t := Do(s, step).row.token;
            t == s.row.token || t == None
            || (Running(s, step.r) && t == s.runs[step.r].started)
            || (step.Complete? && t.Some? && t.value.seen == s.runs[step.r].delivered <= s.applied)
    ensures step.Fail? ==> Do(s, step).row.token == s.runs[step.r].started
  {
    assert RunSafe(s, s.runs[step.r]);
    if step.Complete? { assert SetOf(s.runs[step.r].todo) == {}; }
  }
}
