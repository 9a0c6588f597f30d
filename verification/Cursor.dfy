/** SyncBinding: paging through a calendar's changes, applying them to the tables, and storing the
    sync token at the end. */
module Cursor {
  import opened Text
  import opened CalendarBindings
  import opened ImportStore
  import opened Outbox

  datatype BindingStatus = Active | InError | Disconnected

  // The columns of a binding that a sync writes.
  datatype SyncColumns = SyncColumns(
    syncToken: Option<string>, status: BindingStatus, syncAttempts: int, nextRetryAt: Option<int>, failed: bool)

  // What is fixed while a sync runs: the other columns of its binding, and the clock.
  datatype Setting = Setting(b: Binding, now: int)

  datatype Response =
    | Page(events: seq<Event>, nextPage: string, nextToken: string)
    | TokenInvalid
    | ListFailed

  predicate Imports(b: Binding) { AllowsImport(b.direction) }

  const MAX_SYNC_ATTEMPTS := 8

  // markBindingError
  function WithError(c: SyncColumns, now: int): SyncColumns {
    c.(failed := true, status := InError, syncAttempts := c.syncAttempts + 1,
       nextRetryAt := Some(now + Backoff(c.syncAttempts + 1)))
  }

  // markBindingSynced
  function WithSuccess(c: SyncColumns): SyncColumns {
    c.(failed := false, status := Active, syncAttempts := 0, nextRetryAt := None)
  }

  // ---------- what the answers make of a pass over the pages ----------

  function Applied(s: Store, w: Setting, ev: Event): ImportStore.Outcome { ApplyEvent(s, w.b, ev, w.now) }

  function AppliedAll(s: Store, w: Setting, evs: seq<Event>): ImportStore.Outcome { ApplyEvents(s, w.b, evs, w.now) }

  // The events applied of one page: those before the first that is refused.
  function AppliedOf(s: Store, w: Setting, evs: seq<Event>): seq<Event>
    decreases |evs|
  {
    if evs == [] || !Applied(s, w, evs[0]).ok then []
    else [evs[0]] + AppliedOf(Applied(s, w, evs[0]).store, w, evs[1..])
  }

  function EventsOn(pages: seq<Response>): seq<Event>
    decreases |pages|
  {
    if pages == [] then [] else (if pages[0].Page? then pages[0].events else []) + EventsOn(pages[1..])
  }

  // started is the token the last pass began with, pages what that pass received in full, applied
  // the events applied over all passes, left the answers that were not asked for, and store the
  // tables at the end.
  datatype Heard = Heard(
    ok: bool, started: Option<string>, pages: seq<Response>, applied: seq<Event>, left: seq<Response>, store: Store)

  // importEvents on the calendar's answers, in a pass that has received pages.
  function Listen(
    s: Store, w: Setting, started: Option<string>, pages: seq<Response>, answers: seq<Response>): Heard
    decreases |answers|
  {
    if answers == [] then Heard(false, started, pages, [], [], s)
    else
      var rest := answers[1..];
      match answers[0]
      case TokenInvalid => Listen(s, w, None, [], rest)
      case ListFailed => Heard(false, started, pages, [], rest, s)
      case Page(events, nextPage, _) =>
        var r := AppliedAll(s, w, events);
        if !r.ok then Heard(false, started, pages, AppliedOf(s, w, events), rest, r.store)
        else
          var received := pages + [answers[0]];
          if nextPage == "" then Heard(true, started, received, events, rest, r.store)
          else
            var o := Listen(r.store, w, started, received, rest);
            o.(applied := events + o.applied)
  }

  // Pages chained by page tokens; the last one ends the listing.
  predicate Chained(pages: seq<Response>) {
    forall i :: 0 <= i < |pages| ==> pages[i].Page? && pages[i].nextPage != ""
  }

  predicate WholeListing(pages: seq<Response>) {
    pages != [] && Chained(pages[..|pages| - 1]) && pages[|pages| - 1].Page? && pages[|pages| - 1].nextPage == ""
  }

  function NewToken(pages: seq<Response>, started: Option<string>): Option<string> {
    if pages != [] && pages[|pages| - 1].Page? && pages[|pages| - 1].nextToken != ""
    then Some(pages[|pages| - 1].nextToken) else started
  }

  predicate EndsIn<T(==)>(s: seq<T>, tail: seq<T>) {
    |tail| <= |s| && s[|s| - |tail|..] == tail
  }

  // What is applied of the answers taken, page by page.
  function AppliedOn(s: Store, w: Setting, taken: seq<Response>): seq<Event>
    decreases |taken|
  {
    if taken == [] then []
    else if !taken[0].Page? then AppliedOn(s, w, taken[1..])
    else
      var events := taken[0].events;
      AppliedOf(s, w, events) + AppliedOn(AppliedAll(s, w, events).store, w, taken[1..])
  }

  // The answers a sync took: all but those that are left.
  function Taken(answers: seq<Response>, left: seq<Response>): seq<Response>
    requires |left| <= |answers|
  {
    answers[..|answers| - |left|]
  }

  predicate Rejected(taken: seq<Response>) {
    exists i :: 0 <= i < |taken| && taken[i].TokenInvalid?
  }

  lemma {:induction false} ListenLeaves(
      s: Store, w: Setting, started: Option<string>, pages: seq<Response>, answers: seq<Response>)
    ensures EndsIn(answers, Listen(s, w, started, pages, answers).left)
    decreases |answers|
  {
    if answers != [] {
      var rest := answers[1..];
      ListenLeaves(s, w, None, [], rest);
      if answers[0].Page? {
        ListenLeaves(AppliedAll(s, w, answers[0].events).store, w, started, pages + [answers[0]], rest);
      }
    }
  }

  // Without a rejection the pass keeps the token it began with and receives every answer taken;
  // with one it starts over without a token.
  predicate PassFits(started: Option<string>, pages: seq<Response>, o: Heard, taken: seq<Response>) {
    && (o.started == if Rejected(taken) then None else started)
    && (o.ok ==> if Rejected(taken) then EndsIn(taken, o.pages) else o.pages == pages + taken)
  }

  lemma RejectedCons(first: Response, taken: seq<Response>)
    ensures Rejected([first] + taken) <==> first.TokenInvalid? || Rejected(taken)
  {
    var all := [first] + taken;
    if first.TokenInvalid? { assert all[0].TokenInvalid?; }
    if Rejected(taken) {
      var i :| 0 <= i < |taken| && taken[i].TokenInvalid?;
      assert all[i + 1].TokenInvalid?;
    }
    assert forall i :: 1 <= i < |all| ==> all[i] == taken[i - 1];
  }

  lemma TakenCons(answers: seq<Response>, left: seq<Response>)
    requires answers != [] && |left| <= |answers[1..]|
    ensures Taken(answers, left) == [answers[0]] + Taken(answers[1..], left)
  {
  }

  lemma EndsLonger<T>(a: seq<T>, s: seq<T>, tail: seq<T>)
    requires EndsIn(s, tail)
    ensures EndsIn(a + s, tail)
  {
    assert (a + s)[|a + s| - |tail|..] == s[|s| - |tail|..];
  }

  lemma FitsAfterRejection(
      started: Option<string>, pages: seq<Response>, o: Heard, first: Response, taken: seq<Response>)
    requires first.TokenInvalid? && PassFits(None, [], o, taken)
    ensures PassFits(started, pages, o, [first] + taken)
  {
    RejectedCons(first, taken);
    assert [] + taken == taken;
    if o.ok {
      assert taken[|taken| - |taken|..] == taken;
      EndsLonger([first], taken, o.pages);
    }
  }

  lemma FitsAfterPage(
      started: Option<string>, pages: seq<Response>, o: Heard, first: Response, taken: seq<Response>)
    requires !first.TokenInvalid? && PassFits(started, pages + [first], o, taken)
    ensures PassFits(started, pages, o, [first] + taken)
  {
    RejectedCons(first, taken);
    assert pages + [first] + taken == pages + ([first] + taken);
    if o.ok && Rejected(taken) { EndsLonger([first], taken, o.pages); }
  }

  lemma FitsAtEnd(started: Option<string>, pages: seq<Response>, o: Heard)
    requires o.started == started && (o.ok ==> o.pages == pages)
    ensures PassFits(started, pages, o, [])
  {
    assert pages + [] == pages;
  }

  lemma {:induction false} ListenFits(
      s: Store, w: Setting, started: Option<string>, pages: seq<Response>, answers: seq<Response>)
    ensures var o := Listen(s, w, started, pages, answers);
            |o.left| <= |answers| && PassFits(started, pages, o, Taken(answers, o.left))
    decreases |answers|
  {
    var o := Listen(s, w, started, pages, answers);
    ListenLeaves(s, w, started, pages, answers);
    if answers == [] {
      FitsAtEnd(started, pages, o);
    } else {
      var first, rest := answers[0], answers[1..];
      if first.TokenInvalid? {
        ListenFits(s, w, None, [], rest);
        TakenCons(answers, o.left);
        FitsAfterRejection(started, pages, o, first, Taken(rest, o.left));
      } else {
        if first.Page? && AppliedAll(s, w, first.events).ok && first.nextPage != "" {
          var t := AppliedAll(s, w, first.events).store;
          ListenFits(t, w, started, pages + [first], rest);
          var p := Listen(t, w, started, pages + [first], rest);
          assert o == p.(applied := o.applied);
        } else {
          FitsAtEnd(started, pages + [first], o);
          assert Taken(rest, o.left) == [];
        }
        TakenCons(answers, o.left);
        FitsAfterPage(started, pages, o, first, Taken(rest, o.left));
      }
    }
  }

  lemma {:induction false} PagesAppend(pages: seq<Response>, p: Response)
    requires p.Page?
    ensures EventsOn(pages + [p]) == EventsOn(pages) + p.events
  {
    if pages == [] {
      assert [p][1..] == [] && EventsOn([]) == [];
    } else {
      assert (pages + [p])[1..] == pages[1..] + [p];
      PagesAppend(pages[1..], p);
      var first := if pages[0].Page? then pages[0].events else [];
      assert first + (EventsOn(pages[1..]) + p.events) == first + EventsOn(pages[1..]) + p.events;
    }
  }

  // A page received in full extends the chain and what has been applied of it.
  lemma PageReceived(pages: seq<Response>, p: Response, before: seq<Event>)
    requires p.Page? && Chained(pages) && EndsIn(before, EventsOn(pages))
    ensures EndsIn(before + p.events, EventsOn(pages + [p]))
    ensures if p.nextPage == "" then WholeListing(pages + [p]) else Chained(pages + [p])
  {
    PagesAppend(pages, p);
    EndsAppended(before, EventsOn(pages), p.events);
    assert (pages + [p])[..|pages|] == pages;
  }

  // A completed listing is a chain of pages, and their events are the last ones applied, in order.
  lemma {:induction false} ListenApplies(
      s: Store, w: Setting, started: Option<string>, pages: seq<Response>, answers: seq<Response>, before: seq<Event>)
    requires Chained(pages) && EndsIn(before, EventsOn(pages))
    ensures var o := Listen(s, w, started, pages, answers);
            o.ok ==> WholeListing(o.pages) && EndsIn(before + o.applied, EventsOn(o.pages))
    decreases |answers|
  {
    if answers != [] {
      var first, rest := answers[0], answers[1..];
      if first.TokenInvalid? {
        EventsOnNone(before);
        ListenApplies(s, w, None, [], rest, before);
      } else if first.Page? && AppliedAll(s, w, first.events).ok {
        PageReceived(pages, first, before);
        if first.nextPage != "" {
          var t, done := AppliedAll(s, w, first.events).store, before + first.events;
          ListenApplies(t, w, started, pages + [first], rest, done);
          var o := Listen(t, w, started, pages + [first], rest);
          assert done + o.applied == before + (first.events + o.applied);
        }
      }
    }
  }

  lemma EventsOnNone(before: seq<Event>)
    ensures EndsIn(before, EventsOn([]))
  {
  }

  lemma {:induction false} AllAreApplied(s: Store, w: Setting, evs: seq<Event>)
    requires AppliedAll(s, w, evs).ok
    ensures AppliedOf(s, w, evs) == evs
    decreases |evs|
  {
    if evs != [] {
      AllAreApplied(Applied(s, w, evs[0]).store, w, evs[1..]);
      assert [evs[0]] + evs[1..] == evs;
    }
  }

  // The tables are those the applied events make.
  lemma {:induction false} AppliedMakesTables(s: Store, w: Setting, evs: seq<Event>)
    ensures AppliedAll(s, w, AppliedOf(s, w, evs)) == ImportStore.Outcome(AppliedAll(s, w, evs).store, true)
    decreases |evs|
  {
    if evs != [] {
      var first := Applied(s, w, evs[0]);
      if first.ok {
        AppliedMakesTables(first.store, w, evs[1..]);
        var done := AppliedOf(s, w, evs);
        assert done[1..] == AppliedOf(first.store, w, evs[1..]);
      }
    }
  }

  lemma {:induction false} ApplyBoth(s: Store, w: Setting, p: seq<Event>, q: seq<Event>)
    ensures AppliedAll(s, w, p + q) ==
            if AppliedAll(s, w, p).ok then AppliedAll(AppliedAll(s, w, p).store, w, q) else AppliedAll(s, w, p)
    decreases |p|
  {
    if p == [] {
      assert p + q == q;
    } else {
      assert (p + q)[1..] == p[1..] + q;
      ApplyBoth(Applied(s, w, p[0]).store, w, p[1..], q);
    }
  }

  // What is applied is what the answers taken delivered, page by page up to a refusal, and makes
  // the tables at the end.
  lemma {:induction false} ListenAppliesTaken(
      s: Store, w: Setting, started: Option<string>, pages: seq<Response>, answers: seq<Response>)
    ensures var o := Listen(s, w, started, pages, answers);
            && |o.left| <= |answers| && o.applied == AppliedOn(s, w, Taken(answers, o.left))
            && AppliedAll(s, w, o.applied) == ImportStore.Outcome(o.store, true)
    decreases |answers|
  {
    var o := Listen(s, w, started, pages, answers);
    ListenLeaves(s, w, started, pages, answers);
    if answers != [] {
      var first, rest := answers[0], answers[1..];
      if first.TokenInvalid? {
        ListenAppliesTaken(s, w, None, [], rest);
      } else if first.Page? {
        PageAppliesTaken(s, w, started, pages, answers);
      }
      var taken := Taken(rest, o.left);
      TakenCons(answers, o.left);
      assert ([first] + taken)[1..] == taken;
    }
  }

  lemma {:induction false} PageAppliesTaken(
      s: Store, w: Setting, started: Option<string>, pages: seq<Response>, answers: seq<Response>)
    requires answers != [] && answers[0].Page?
    ensures var o := Listen(s, w, started, pages, answers);
            && |o.left| <= |answers[1..]|
            && var taken := Taken(answers[1..], o.left);
            && o.applied == AppliedOn(s, w, [answers[0]] + taken)
            && AppliedAll(s, w, o.applied) == ImportStore.Outcome(o.store, true)
    decreases |answers|, 0
  {
    var first, rest := answers[0], answers[1..];
    var o := Listen(s, w, started, pages, answers);
    AppliedMakesTables(s, w, first.events);
    var t := AppliedAll(s, w, first.events);
    if t.ok && first.nextPage != "" {
      AllAreApplied(s, w, first.events);
      ListenAppliesTaken(t.store, w, started, pages + [first], rest);
      var p := Listen(t.store, w, started, pages + [first], rest);
      ApplyBoth(s, w, first.events, p.applied);
      assert ([first] + Taken(rest, p.left))[1..] == Taken(rest, p.left);
    } else {
      if t.ok { AllAreApplied(s, w, first.events); }
      assert Taken(rest, o.left) == [] && ([first] + [])[1..] == [];
      assert AppliedOf(s, w, first.events) + [] == AppliedOf(s, w, first.events);
    }
  }

  lemma EndsAppended(s: seq<Event>, tail: seq<Event>, more: seq<Event>)
    requires EndsIn(s, tail)
    ensures EndsIn(s + more, tail + more)
  {
    assert s == s[..|s| - |tail|] + tail;
    assert s + more == s[..|s| - |tail|] + (tail + more);
  }

  // ---------- the sync ----------

  // The row after the loop, by what was heard.
  function RowAfter(c: SyncColumns, o: Heard, now: int): SyncColumns {
    if o.ok then WithSuccess(c.(syncToken := NewToken(o.pages, o.started)))
    else WithError(c.(syncToken := o.started), now)
  }

  // SyncBinding on the row; connects says whether a client for the account could be made.
  function Synced(c: SyncColumns, s: Store, w: Setting, answers: seq<Response>, connects: bool): SyncColumns {
    if !Imports(w.b) then c
    else if !connects then WithError(c, w.now)
    else RowAfter(c, Listen(s, w, c.syncToken, [], answers), w.now)
  }

  predicate Succeeded(c: SyncColumns) {
    !c.failed && c.status == Active && c.syncAttempts == 0 && c.nextRetryAt.None?
  }

  // One more failure, to be tried again after 1, 5, 30, and from then on 120 minutes.
  predicate FailedAgain(was: SyncColumns, c: SyncColumns, now: int) {
    && c.failed && c.status == InError && c.syncAttempts == was.syncAttempts + 1
    && c.nextRetryAt == Some(now + if was.syncAttempts <= 0 then 1 else if was.syncAttempts == 1 then 5
                                   else if was.syncAttempts == 2 then 30 else 120)
  }

  lemma {:induction false} ListenTakesOne(
      s: Store, w: Setting, started: Option<string>, pages: seq<Response>, answers: seq<Response>)
    requires answers != []
    ensures |Listen(s, w, started, pages, answers).left| < |answers|
  {
    var rest := answers[1..];
    match answers[0]
    case TokenInvalid => ListenLeaves(s, w, None, [], rest);
    case ListFailed =>
    case Page(events, nextPage, _) =>
      ListenLeaves(AppliedAll(s, w, events).store, w, started, pages + [answers[0]], rest);
  }

  // Only a binding that exports and does not import is left alone; any other takes at least one of
  // the answers it is offered and has its row marked by how that went.
  lemma SyncByDirection(c: SyncColumns, s: Store, w: Setting, answers: seq<Response>, connects: bool)
    ensures var d, row, o := w.b.direction, Synced(c, s, w, answers, connects), Listen(s, w, c.syncToken, [], answers);
            && (d == ExportOnly ==> row == c)
            && (d == ImportOnly || d == BothWays ==>
                  && (if connects && o.ok then Succeeded(row) else FailedAgain(c, row, w.now))
                  && (answers != [] ==> |o.left| < |answers|) && (answers == [] ==> !o.ok))
  {
    if answers != [] { ListenTakesOne(s, w, c.syncToken, [], answers); }
  }

  // What a sync takes from the calendar: a completed one has received a whole listing, the last of
  // the answers it took, and applied its events last and in order; the token it stores is the one
  // of the last page or the one the listing began with. The token is dropped exactly when the
  // calendar rejected it, and the tables are those the applied events make.
  lemma SyncTakesWholeListing(c: SyncColumns, s: Store, w: Setting, answers: seq<Response>)
    ensures var o := Listen(s, w, c.syncToken, [], answers);
            && EndsIn(answers, o.left)
            && var taken := Taken(answers, o.left);
            && (o.started == if Rejected(taken) then None else c.syncToken)
            && o.applied == AppliedOn(s, w, taken)
            && AppliedAll(s, w, o.applied) == ImportStore.Outcome(o.store, true)
            && (o.ok ==> WholeListing(o.pages) && EndsIn(taken, o.pages) && EndsIn(o.applied, EventsOn(o.pages)))
            && (o.ok && !Rejected(taken) ==> o.pages == taken)
  {
    ListenLeaves(s, w, c.syncToken, [], answers);
    ListenFits(s, w, c.syncToken, [], answers);
    ListenAppliesTaken(s, w, c.syncToken, [], answers);
    ListenApplies(s, w, c.syncToken, [], answers, []);
    var o := Listen(s, w, c.syncToken, [], answers);
    var taken := Taken(answers, o.left);
    assert [] + o.applied == o.applied && [] + taken == taken;
    assert taken[|taken| - |taken|..] == taken;
  }

  // The token a sync leaves in the row: that of the last page it received once a listing is
  // complete and that page has one, else the one it began with, which is none after a rejection.
  lemma SyncStoresToken(c: SyncColumns, s: Store, w: Setting, answers: seq<Response>)
    requires w.b.direction != ExportOnly
    ensures var o := Listen(s, w, c.syncToken, [], answers);
            var row := Synced(c, s, w, answers, true);
            && |o.left| <= |answers|
            && var began := if Rejected(Taken(answers, o.left)) then None else c.syncToken;
            if !o.ok then row.syncToken == began
            else
              && |o.left| < |answers| && o.pages != []
              && o.pages[|o.pages| - 1] == answers[|answers| - |o.left| - 1]
              && match o.pages[|o.pages| - 1]
                 case Page(_, _, token) => row.syncToken == if token == "" then began else Some(token)
                 case _ => false
  {
    SyncTakesWholeListing(c, s, w, answers);
    var o := Listen(s, w, c.syncToken, [], answers);
    if o.ok {
      var taken := Taken(answers, o.left);
      assert taken[|taken| - |o.pages|..][|o.pages| - 1] == o.pages[|o.pages| - 1];
    }
  }

  // A binding, its row, the tables, and the calendar's answers to come (a calendar that has no
  // more answers does not respond); applied records the events that were applied.
  class BindingSync {
    const binding: Binding
    const tables: SyncTables
    var row: SyncColumns
    var answers: seq<Response>
    ghost var applied: seq<Event>

    constructor (b: Binding, t: SyncTables, c: SyncColumns, script: seq<Response>)
      ensures binding == b && tables == t && row == c && applied == [] && answers == script
    {
      binding, tables, row, applied, answers := b, t, c, [], script;
    }

    ghost predicate Valid()
      reads tables
    {
      ImportStore.Valid(tables.Contents())
    }

    method ListEvents() returns (r: Response)
      modifies this`answers
      ensures old(answers) != [] ==> r == old(answers)[0] && answers == old(answers)[1..]
      ensures old(answers) == [] ==> r.ListFailed? && answers == []
    {
      if answers == [] {
        return ListFailed;
      }
      r := answers[0];
      answers := answers[1..];
    }

    // The loop over the events of a page, which stops at the first that is refused.
    method ApplyAll(evs: seq<Event>, now: int) returns (ok: bool)
      requires Valid()
      modifies this`applied, tables
      ensures Valid()
      ensures ImportStore.Outcome(tables.Contents(), ok) ==
              AppliedAll(old(tables.Contents()), Setting(binding, now), evs)
      ensures applied == old(applied) + AppliedOf(old(tables.Contents()), Setting(binding, now), evs)
    {
      ghost var s, w := tables.Contents(), Setting(binding, now);
      var i := 0;
      assert evs[0..] == evs;
      while i < |evs|
        invariant 0 <= i <= |evs| && Valid()
        invariant AppliedAll(s, w, evs) == AppliedAll(tables.Contents(), w, evs[i..])
        invariant old(applied) + AppliedOf(s, w, evs) == applied + AppliedOf(tables.Contents(), w, evs[i..])
      {
        ghost var t, rest := tables.Contents(), evs[i..];
        assert rest[1..] == evs[i + 1..] && rest[0] == evs[i];
        ImportIsValid(t, binding, evs[i], now);
        var accepted := tables.UpsertImportedEvent(binding, evs[i], now);
        if !accepted {
          assert applied + [] == applied;
          return false;
        }
        assert applied + ([evs[i]] + AppliedOf(tables.Contents(), w, evs[i + 1..])) ==
               applied + [evs[i]] + AppliedOf(tables.Contents(), w, evs[i + 1..]);
        applied := applied + [evs[i]];
        i := i + 1;
      }
      assert evs[i..] == [] && applied + [] == applied;
      ok := true;
    }

    // importEvents on the copy c of the row.
    method ImportEvents(c: SyncColumns, now: int) returns (ok: bool, c2: SyncColumns)
      requires Valid()
      modifies this, tables
      ensures Valid()
      ensures var o := Listen(old(tables.Contents()), Setting(binding, now), c.syncToken, [], old(answers));
              && ok == o.ok && answers == o.left && applied == old(applied) + o.applied
              && tables.Contents() == o.store && EndsIn(old(answers), answers)
              && c2 == c.(syncToken := if ok then NewToken(o.pages, o.started) else o.started)
      ensures row == if Rejected(Taken(old(answers), answers)) then old(row).(syncToken := None) else old(row)
      decreases |answers|
    {
      c2 := c;
      ghost var script, start, w := answers, applied, Setting(binding, now);
      ghost var pages: seq<Response> := [];
      ghost var goal := Listen(tables.Contents(), w, c.syncToken, [], script);
      assert Taken(script, answers) == [];
      var more := true;
      while more
        invariant Valid() && EndsIn(script, answers) && row == old(row) && !Rejected(Taken(script, answers))
        invariant more ==> c2 == c
        invariant more ==>
                    Resumes(goal, start, Listen(tables.Contents(), w, c.syncToken, pages, answers), applied)
        invariant !more ==>
                    Resumes(goal, start, Heard(true, c.syncToken, pages, [], answers, tables.Contents()), applied)
        invariant !more ==> c2 == c.(syncToken := NewToken(pages, c.syncToken))
        decreases more, |answers|
      {
        ghost var before, asked, s := applied, answers, tables.Contents();
        var r := ListEvents();
        TakenNext(script, asked, answers);
        if r.TokenInvalid? {
          // The stored token is dropped and the listing starts over without one.
          row := row.(syncToken := None);
          ok, c2 := ImportEvents(c.(syncToken := None), now);
          TakenMore(script, asked[1..], answers);
          return;
        }
        if r.ListFailed? {
          return false, c;
        }
        var applies := ApplyAll(r.events, now);
        if !applies {
          return false, c2;
        }
        ListenNext(s, w, c.syncToken, pages, asked, goal, start, before);
        AllAreApplied(s, w, r.events);
        pages := pages + [r];
        more := r.nextPage != "";
        if !more && r.nextToken != "" {
          c2 := c.(syncToken := Some(r.nextToken));
        }
      }
      ok := true;
    }

    method SyncBinding(connects: bool, now: int) returns (ok: bool)
      requires Valid()
      modifies this, tables
      ensures Valid()
      ensures row == Synced(old(row), old(tables.Contents()), Setting(binding, now), old(answers), connects)
      ensures binding.direction == ExportOnly ==>
                && row == old(row) && applied == old(applied) && answers == old(answers)
                && tables.Contents() == old(tables.Contents())
      ensures binding.direction != ExportOnly ==> if ok then Succeeded(row) else FailedAgain(old(row), row, now)
      ensures binding.direction != ExportOnly && connects && old(answers) != [] ==> |answers| < |old(answers)|
      ensures !Imports(binding) || !connects ==>
                applied == old(applied) && answers == old(answers) && tables.Contents() == old(tables.Contents())
      ensures Imports(binding) && connects ==>
                var o := Listen(old(tables.Contents()), Setting(binding, now), old(row).syncToken, [], old(answers));
                && ok == o.ok && applied == old(applied) + o.applied && answers == o.left
                && tables.Contents() == o.store
    {
      SyncByDirection(row, tables.Contents(), Setting(binding, now), answers, connects);
      var c := row;
      if !connects {
        if Imports(binding) {
          row := WithError(c, now);
        }
        return false;
      }
      if !Imports(binding) {
        return true;
      }
      var c2;
      ok, c2 := ImportEvents(c, now);
      row := if ok then WithSuccess(c2) else WithError(c2, now);
    }
  }

  lemma TakenNext(script: seq<Response>, asked: seq<Response>, left: seq<Response>)
    requires EndsIn(script, asked) && left == if asked == [] then [] else asked[1..]
    ensures EndsIn(script, left)
    ensures Rejected(Taken(script, left)) <==>
            Rejected(Taken(script, asked)) || (asked != [] && asked[0].TokenInvalid?)
  {
    var first, all := Taken(script, asked), Taken(script, left);
    if asked == [] {
      assert all == script && first == script;
    } else {
      assert asked[0] == script[|script| - |asked|];
      assert all == first + [asked[0]];
      assert all[|first|] == asked[0] && forall i :: 0 <= i < |first| ==> all[i] == first[i];
    }
  }

  lemma TakenMore(script: seq<Response>, asked: seq<Response>, left: seq<Response>)
    requires EndsIn(script, asked) && EndsIn(asked, left) && Rejected(Taken(script, asked))
    ensures EndsIn(script, left) && Rejected(Taken(script, left))
  {
    var first, all := Taken(script, asked), Taken(script, left);
    assert forall i :: 0 <= i < |first| ==> all[i] == first[i];
  }

  // What is still to come of goal, which began with start applied, once applied has been reached.
  predicate Resumes(goal: Heard, start: seq<Event>, o: Heard, applied: seq<Event>) {
    && goal.ok == o.ok && goal.started == o.started && goal.pages == o.pages && goal.left == o.left
    && goal.store == o.store && start + goal.applied == applied + o.applied
  }

  lemma ListenNext(
      s: Store, w: Setting, started: Option<string>, pages: seq<Response>, answers: seq<Response>, goal: Heard,
      start: seq<Event>, applied: seq<Event>)
    requires answers != [] && answers[0].Page? && AppliedAll(s, w, answers[0].events).ok
    requires Resumes(goal, start, Listen(s, w, started, pages, answers), applied)
    ensures var received, t := pages + [answers[0]], AppliedAll(s, w, answers[0].events).store;
            Resumes(goal, start,
              if answers[0].nextPage == "" then Heard(true, started, received, [], answers[1..], t)
              else Listen(t, w, started, received, answers[1..]), applied + answers[0].events)
  {
    var t, done := AppliedAll(s, w, answers[0].events).store, applied + answers[0].events;
    var o := Listen(t, w, started, pages + [answers[0]], answers[1..]);
    assert applied + (answers[0].events + o.applied) == done + o.applied;
    assert done + [] == done;
  }

  // ---------- automatic retries ----------

  // ListDueForSync
  predicate DueForSync(b: Binding, c: SyncColumns, now: int, maxAttempts: int) {
    var limit := if maxAttempts <= 0 then 8 else maxAttempts;
    && Imports(b)
    && (c.status == Active
        || (c.status == InError && c.syncAttempts < limit && (c.nextRetryAt.None? || c.nextRetryAt.value <= now)))
  }

  // The scheduler picks the bindings that import, alone or both ways, and are active, or failed
  // fewer times than the limit and have waited.
  lemma DueExactly(b: Binding, c: SyncColumns, now: int, maxAttempts: int)
    ensures DueForSync(b, c, now, maxAttempts) <==>
              && (b.direction == ImportOnly || b.direction == BothWays)
              && (|| c.status == Active
                  || (&& c.status == InError && (c.nextRetryAt == None || c.nextRetryAt.value <= now)
                      && c.syncAttempts < if maxAttempts >= 1 then maxAttempts else MAX_SYNC_ATTEMPTS))
  {
  }

  // The scheduler polls at the given times and every sync it starts fails.
  function FailingPolls(b: Binding, c: SyncColumns, times: seq<int>): (SyncColumns, nat)
    decreases |times|
  {
    if times == [] then (c, 0)
    else if DueForSync(b, c, times[0], MAX_SYNC_ATTEMPTS) then
      var (end, n) := FailingPolls(b, WithError(c, times[0]), times[1..]);
      (end, n + 1)
    else FailingPolls(b, c, times[1..])
  }

  // What n failures in a row since `first` have left in the row.
  predicate Waiting(c: SyncColumns, first: int) {
    && 1 <= c.syncAttempts <= MAX_SYNC_ATTEMPTS && c.status == InError
    && c.nextRetryAt.Some? && c.nextRetryAt.value >= first + BackoffTotal(c.syncAttempts)
  }

  lemma {:induction false} WaitingPolls(b: Binding, c: SyncColumns, first: int, times: seq<int>)
    requires Waiting(c, first)
    ensures var (end, n) := FailingPolls(b, c, times);
            Waiting(end, first) && n == end.syncAttempts - c.syncAttempts
    decreases |times|
  {
    if times != [] {
      if DueForSync(b, c, times[0], MAX_SYNC_ATTEMPTS) {
        WaitingPolls(b, WithError(c, times[0]), first, times[1..]);
      } else {
        WaitingPolls(b, c, first, times[1..]);
      }
    }
  }

  // A binding that keeps failing is tried at most 8 times on its own, and the last of these
  // tries comes no earlier than 516 minutes after the first.
  lemma FailingBindingIsGivenUp(b: Binding, c: SyncColumns, times: seq<int>)
    requires c.status == Active && c.syncAttempts == 0 && b.direction != ExportOnly && times != []
    ensures var (end, n) := FailingPolls(b, c, times);
            && 1 <= n <= MAX_SYNC_ATTEMPTS && n == end.syncAttempts
            && (n == MAX_SYNC_ATTEMPTS ==> forall now :: !DueForSync(b, end, now, MAX_SYNC_ATTEMPTS))
            && end.nextRetryAt.Some? && end.nextRetryAt.value >= times[0] + BackoffTotal(n)
    ensures BackoffTotal(MAX_SYNC_ATTEMPTS - 1) == 516
  {
    WholeBackoff();
    assert BackoffTotal(1) == Backoff(1);
    WaitingPolls(b, WithError(c, times[0]), times[0], times[1..]);
  }
}
