/** A sync of a binding is a run of the step system in CursorRuns, so what holds over all runs holds
    of the code's paging loop. */
module CursorRefinement {
  import opened Text
  import opened ImportStore
  import opened Cursor
  import opened CursorRuns

  // The columns the step system keeps, with what the calendar had returned added to the token.
  predicate Matches(c: SyncColumns, s: Stored) {
    && c.syncToken == (match s.token case None => None case Some(t) => Some(t.text))
    && c.status == s.status && c.syncAttempts == s.syncAttempts
  }

  function Repeat(step: Step, n: nat): seq<Step> {
    if n == 0 then [] else [step] + Repeat(step, n - 1)
  }

  // The steps of run r on the calendar's answers, from the first request on.
  function Trace(db: Store, w: Setting, r: int, answers: seq<Response>): seq<Step>
    decreases |answers|
  {
    if answers == [] then [Fail(r)]
    else
      match answers[0]
      case TokenInvalid => [Invalid(r)] + Trace(db, w, r, answers[1..])
      case ListFailed => [Fail(r)]
      case Page(evs, nextPage, nextToken) =>
        var o := AppliedAll(db, w, evs);
        PageTrace(db, w, r, evs, nextPage, nextToken) +
        if !o.ok then [Fail(r)] else if nextPage == "" then [Complete(r)] else Trace(o.store, w, r, answers[1..])
  }

  // A page of which only done is applied.
  function PageSteps(r: int, evs: seq<Event>, done: seq<Event>, nextPage: string, nextToken: string): seq<Step> {
    [ListPage(r, evs, if nextPage == "" then Some(nextToken) else None)] + Repeat(Apply(r), |done|)
  }

  function PageTrace(db: Store, w: Setting, r: int, evs: seq<Event>, nextPage: string, nextToken: string): seq<Step> {
    PageSteps(r, evs, AppliedOf(db, w, evs), nextPage, nextToken)
  }

  function SyncTrace(db: Store, w: Setting, r: int, answers: seq<Response>, connects: bool): seq<Step> {
    if !Imports(w.b) then [] else [Begin(r)] + if connects then Trace(db, w, r, answers) else [Fail(r)]
  }

  lemma {:induction false} DoBoth(s: State, a: seq<Step>, b: seq<Step>)
    requires CanDoAll(s, a) && CanDoAll(DoAll(s, a), b)
    ensures CanDoAll(s, a + b) && DoAll(s, a + b) == DoAll(DoAll(s, a), b)
    decreases |a|
  {
    if a == [] {
      assert a + b == b;
    } else {
      assert (a + b)[1..] == a[1..] + b;
      DoBoth(Do(s, a[0]), a[1..], b);
    }
  }

  lemma DoOne(s: State, step: Step)
    requires Can(s, step)
    ensures CanDoAll(s, [step]) && DoAll(s, [step]) == Do(s, step)
  {
    assert [step][1..] == [];
    assert DoAll(Do(s, step), []) == Do(s, step);
  }

  lemma {:induction false} AppliedIsPrefix(db: Store, w: Setting, evs: seq<Event>)
    ensures AppliedOf(db, w, evs) <= evs
    decreases |evs|
  {
    if evs != [] { AppliedIsPrefix(Applied(db, w, evs[0]).store, w, evs[1..]); }
  }

  lemma {:induction false} ApplySome(s: State, r: int, n: nat)
    requires Running(s, r) && n <= |s.runs[r].todo|
    ensures CanDoAll(s, Repeat(Apply(r), n))
    ensures DoAll(s, Repeat(Apply(r), n)) ==
            s.(applied := s.applied + SetOf(s.runs[r].todo[..n]),
               runs := s.runs[r := s.runs[r].(todo := s.runs[r].todo[n..])])
    decreases n
  {
    var todo := s.runs[r].todo;
    if n == 0 {
      assert todo[..0] == [] && SetOf(todo[..0]) == {} && todo[0..] == todo;
      assert s.runs[r := s.runs[r].(todo := todo)] == s.runs;
    } else {
      var t := Do(s, Apply(r));
      ApplySome(t, r, n - 1);
      assert Repeat(Apply(r), n)[1..] == Repeat(Apply(r), n - 1);
      assert todo[1..][..n - 1] == todo[..n][1..] && todo[1..][n - 1..] == todo[n..];
      HeadAndTail(todo[..n]);
      assert s.applied + {todo[0]} + SetOf(todo[1..][..n - 1]) == s.applied + SetOf(todo[..n]);
    }
  }

  // A run between two pages, working on a copy of the row that matches c.
  predicate Fetching(s: State, r: int, c: SyncColumns) {
    Running(s, r) && s.runs[r].todo == [] && s.runs[r].last.None? && Matches(c, s.runs[r].binding)
  }

  // The page has been worked on up to done.
  predicate Worked(
    s: State, r: int, evs: seq<Event>, done: seq<Event>, nextPage: string, nextToken: string, t: State)
  {
    && Running(s, r) && Running(t, r) && t.row == s.row && t.applied == s.applied + SetOf(done)
    && t.runs == s.runs[r := t.runs[r]] && t.runs[r].binding == s.runs[r].binding
    && t.runs[r].last == (if nextPage == "" then Some(nextToken) else None)
    && (done == evs ==> t.runs[r].todo == [])
  }

  lemma PageIsWorked(
      s: State, r: int, c: SyncColumns, evs: seq<Event>, done: seq<Event>, nextPage: string, nextToken: string)
    requires Fetching(s, r, c) && done <= evs
    ensures CanDoAll(s, PageSteps(r, evs, done, nextPage, nextToken))
    ensures Worked(s, r, evs, done, nextPage, nextToken, DoAll(s, PageSteps(r, evs, done, nextPage, nextToken)))
  {
    var list := ListPage(r, evs, if nextPage == "" then Some(nextToken) else None);
    var u := Do(s, list);
    ApplySome(u, r, |done|);
    DoOne(s, list);
    DoBoth(s, [list], Repeat(Apply(r), |done|));
  }

  // The run has ended in `after`, with what was applied and the row written.
  predicate Ended(s: State, r: int, applied: seq<Event>, row: SyncColumns, after: State) {
    && after.applied == s.applied + SetOf(applied) && after.runs == s.runs[r := Off] && Matches(row, after.row)
  }

  lemma FailEnds(s: State, r: int, c: SyncColumns, applied: seq<Event>, now: int)
    requires Running(s, r) && Matches(c, s.runs[r].binding) && applied == []
    ensures CanDoAll(s, [Fail(r)]) && Ended(s, r, applied, WithError(c, now), DoAll(s, [Fail(r)]))
  {
    DoOne(s, Fail(r));
    assert SetOf(applied) == {};
  }

  lemma CompleteEnds(s: State, r: int, c: SyncColumns, last: string)
    requires Running(s, r) && Matches(c, s.runs[r].binding) && s.runs[r].todo == [] && s.runs[r].last == Some(last)
    ensures CanDoAll(s, [Complete(r)])
    ensures Ended(s, r, [], WithSuccess(if last != "" then c.(syncToken := Some(last)) else c), DoAll(s, [Complete(r)]))
  {
    DoOne(s, Complete(r));
    var none: seq<Event> := [];
    assert SetOf(none) == {};
  }

  // Steps that keep the other runs, then steps that end the run.
  lemma EndsLater(
      s: State, r: int, steps: seq<Step>, done: seq<Event>, more: seq<Step>, rest: seq<Event>, row: SyncColumns)
    requires CanDoAll(s, steps) && CanDoAll(DoAll(s, steps), more) && Running(DoAll(s, steps), r)
    requires var t := DoAll(s, steps);
             && t.applied == s.applied + SetOf(done) && t.runs == s.runs[r := t.runs[r]]
             && Ended(t, r, rest, row, DoAll(t, more))
    ensures CanDoAll(s, steps + more) && Ended(s, r, done + rest, row, DoAll(s, steps + more))
  {
    DoBoth(s, steps, more);
    SetOfAppend(done, rest);
  }

  lemma {:induction false} ListenIsTrace(
      s: State, r: int, c: SyncColumns, db: Store, w: Setting, pages: seq<Response>, answers: seq<Response>)
    requires Fetching(s, r, c)
    ensures var o := Listen(db, w, c.syncToken, pages, answers);
            && CanDoAll(s, Trace(db, w, r, answers))
            && Ended(s, r, o.applied, RowAfter(c, o, w.now), DoAll(s, Trace(db, w, r, answers)))
    decreases |answers|
  {
    if answers == [] || answers[0].ListFailed? {
      FailEnds(s, r, c, [], w.now);
    } else if answers[0].TokenInvalid? {
      var c1 := c.(syncToken := None);
      ListenIsTrace(Do(s, Invalid(r)), r, c1, db, w, [], answers[1..]);
      DoOne(s, Invalid(r));
      var o := Listen(db, w, None, [], answers[1..]);
      var none: seq<Event> := [];
      assert SetOf(none) == {};
      EndsLater(s, r, [Invalid(r)], none, Trace(db, w, r, answers[1..]), o.applied, RowAfter(c1, o, w.now));
      assert none + o.applied == o.applied;
    } else {
      PageIsTrace(s, r, c, db, w, pages, answers);
    }
  }

  lemma {:induction false} PageIsTrace(
      s: State, r: int, c: SyncColumns, db: Store, w: Setting, pages: seq<Response>, answers: seq<Response>)
    requires Fetching(s, r, c) && answers != [] && answers[0].Page?
    ensures var o := Listen(db, w, c.syncToken, pages, answers);
            && CanDoAll(s, Trace(db, w, r, answers))
            && Ended(s, r, o.applied, RowAfter(c, o, w.now), DoAll(s, Trace(db, w, r, answers)))
    decreases |answers|, 0
  {
    var p, rest := answers[0], answers[1..];
    var o := Listen(db, w, c.syncToken, pages, answers);
    var steps := PageTrace(db, w, r, p.events, p.nextPage, p.nextToken);
    var done := AppliedOf(db, w, p.events);
    AppliedIsPrefix(db, w, p.events);
    PageIsWorked(s, r, c, p.events, done, p.nextPage, p.nextToken);
    var t := DoAll(s, steps);
    assert done + [] == done;
    var page := AppliedAll(db, w, p.events);
    if !page.ok {
      FailEnds(t, r, c, [], w.now);
      EndsLater(s, r, steps, done, [Fail(r)], [], WithError(c, w.now));
    } else {
      AllAreApplied(db, w, p.events);
      if p.nextPage == "" {
        CompleteEnds(t, r, c, p.nextToken);
        EndsLater(s, r, steps, done, [Complete(r)], [], RowAfter(c, o, w.now));
      } else {
        ListenIsTrace(t, r, c, page.store, w, pages + [p], rest);
        var more := Listen(page.store, w, c.syncToken, pages + [p], rest).applied;
        EndsLater(s, r, steps, done, Trace(page.store, w, r, rest), more, RowAfter(c, o, w.now));
      }
    }
  }

  // Main result: a sync of a binding, whatever the calendar answers, is a run of steps that writes
  // the same row, applies the same events and leaves every other run alone.
  lemma SyncIsARun(
      s: State, r: int, c: SyncColumns, db: Store, w: Setting, answers: seq<Response>, connects: bool)
    requires r in s.runs && s.runs[r].Off? && Matches(c, s.row)
    ensures var steps := SyncTrace(db, w, r, answers, connects);
            && CanDoAll(s, steps)
            && var t := DoAll(s, steps);
            && Matches(Synced(c, db, w, answers, connects), t.row) && t.runs == s.runs
            && t.applied == s.applied +
                 if Imports(w.b) && connects then SetOf(Listen(db, w, c.syncToken, [], answers).applied) else {}
  {
    if Imports(w.b) {
      var u := Do(s, Begin(r));
      DoOne(s, Begin(r));
      var none: seq<Event> := [];
      assert SetOf(none) == {} && none + none == none;
      if connects {
        ListenIsTrace(u, r, c, db, w, [], answers);
        var o := Listen(db, w, c.syncToken, [], answers);
        EndsLater(s, r, [Begin(r)], none, Trace(db, w, r, answers), o.applied, RowAfter(c, o, w.now));
        assert none + o.applied == o.applied;
      } else {
        FailEnds(u, r, c, none, w.now);
        EndsLater(s, r, [Begin(r)], none, [Fail(r)], none, WithError(c, w.now));
      }
      assert s.runs[r := Off] == s.runs;
    }
  }

  // So a sync keeps every change: from a safe state it ends in one.
  lemma SyncIsSafe(s: State, r: int, c: SyncColumns, db: Store, w: Setting, answers: seq<Response>, connects: bool)
    requires r in s.runs && s.runs[r].Off? && Matches(c, s.row) && Safe(s)
    ensures CanDoAll(s, SyncTrace(db, w, r, answers, connects))
    ensures var t := DoAll(s, SyncTrace(db, w, r, answers, connects));
            && Safe(t) && Matches(Synced(c, db, w, answers, connects), t.row)
            && SeenBy(t.row.token) <= t.applied
  {
    SyncIsARun(s, r, c, db, w, answers, connects);
    StoredTokenHidesNothing(s, SyncTrace(db, w, r, answers, connects));
  }
}
