/** Replaying an import at a later time, when the clock has moved on and events have changed: the
    second import prevails, unless an exported reminder's event ended in between. */
module LaterReplay {
  import opened Text
  import opened ImportStore
  import opened ImportReplay

  // The second delivery writes every column the first one wrote: it does not leave the schedule of
  // an exported reminder as the first one set it.
  predicate Overrides(origin: Origin, f: Task, g: Task) {
    KeepsOpen(origin, g.status) ==> KeepsOpen(origin, f.status)
  }

  // Event e comes at time now, and event e2 for the same id at time later.
  predicate Covered(s: Store, b: Binding, e: Event, now: int, e2: Event, later: int) {
    && Ready(s, b, e, now) && Ready(s, b, e2, later) && e.id == e2.id
    && match LinkOf(s, b, e)
       case None => true
       case Some(l) => l in s.links && Overrides(s.links[l].origin, EventFields(e, b, now), EventFields(e2, b, later))
  }

  // The first events of the second batch are those of the first batch, as they are by then.
  predicate AllCovered(s: Store, b: Binding, p: seq<Event>, now: int, evs: seq<Event>, later: int) {
    |p| <= |evs| && forall i :: 0 <= i < |p| ==> Covered(s, b, p[i], now, evs[i], later)
  }

  lemma ReadyAnytime(s: Store, b: Binding, ev: Event, now: int, later: int)
    ensures Ready(s, b, ev, now) <==> Ready(s, b, ev, later)
  {
  }

  lemma AllReadyAnytime(s: Store, b: Binding, evs: seq<Event>, now: int, later: int)
    requires AllReady(s, b, evs, now)
    ensures AllReady(s, b, evs, later)
  {
    forall i | 0 <= i < |evs| ensures Ready(s, b, evs[i], later) {
      assert Ready(s, b, evs[i], now);
      ReadyAnytime(s, b, evs[i], now, later);
    }
  }

  lemma FieldsAreFromImport(ev: Event, b: Binding, now: int)
    requires MapEvent(ev, b, now).Some?
    ensures FromImport(EventFields(ev, b, now))
  {
  }

  lemma OverriddenTask(t: Task, f: Task, g: Task, origin: Origin)
    requires FromImport(f) && FromImport(g) && Overrides(origin, f, g)
    ensures TasksAlike(t, AssignTask(t, f, origin), g, origin)
  {
  }

  lemma AlikeLater(s: Store, b: Binding, e: Event, now: int, e2: Event, later: int)
    requires Covered(s, b, e, now, e2, later) && Linked(s, b, e, now)
    ensures Alike(s, Assign(s, b, e, now), b, e2, later)
  {
    var v := Assign(s, b, e, now);
    AssignKeepsShape(s, b, e, now);
    ShapeDecides(s, v, b, e2, later);
    var l := s.links[TargetLink(s, b, e)];
    FieldsAreFromImport(e, b, now);
    FieldsAreFromImport(e2, b, later);
    OverriddenTask(s.tasks[l.taskId], EventFields(e, b, now), EventFields(e2, b, later), l.origin);
  }

  // ---------- one event more in the first import ----------

  lemma SettledAlike(u: Store, v: Store, b: Binding, q: seq<Event>, e2: Event, later: int)
    requires Valid(u) && Valid(v) && Alike(u, v, b, e2, later) && AllLinked(u, b, q, later) && u.jobs == v.jobs
    ensures AllReady(u, b, q, later) && AllReady(v, b, q, later)
    ensures Ready(SettleAll(u, b, q, later), b, e2, later) && Ready(SettleAll(v, b, q, later), b, e2, later)
    ensures Settle(SettleAll(u, b, q, later), b, e2, later) == Settle(SettleAll(v, b, q, later), b, e2, later)
  {
    AlikeAfterAll(u, v, b, e2, later, q);
    SettleLinked(u, b, q, later);
    SettleLinked(v, b, q, later);
    AlikeAssignEqual(AssignAll(u, b, q, later), AssignAll(v, b, q, later), b, e2, later);
  }

  lemma SettledGrown(u: Store, b: Binding, q: seq<Event>, e: Event, now: int, e2: Event, later: int)
    requires Valid(u) && Foreign(u, b, e, now) && Ready(u, b, e2, later) && e.id == e2.id && AllLinked(u, b, q, later)
    ensures var v := Grow(u, b, e, now);
            && Valid(v) && AllReady(u, b, q, later) && AllReady(v, b, q, later)
            && Ready(SettleAll(u, b, q, later), b, e2, later) && Ready(SettleAll(v, b, q, later), b, e2, later)
            && Settle(SettleAll(u, b, q, later), b, e2, later) == Settle(SettleAll(v, b, q, later), b, e2, later)
  {
    var v, t := Grow(u, b, e, now), AssignAll(u, b, q, later);
    GrowIsValid(u, b, e, now);
    AssignAllThenGrow(u, b, e, now, q, later);
    SettleLinked(u, b, q, later);
    SettleLinked(v, b, q, later);
    ShapeKeepsValid(u, t);
    ShapeDecides(u, t, b, e2, later);
    AssignAfterGrow(t, b, e, now, e2, later);
  }

  lemma SplitAt(u: Store, b: Binding, evs: seq<Event>, j: nat, now: int)
    requires Valid(u) && AllReady(u, b, evs, now) && j < |evs|
    ensures AllReady(u, b, evs[..j], now)
    ensures var t := SettleAll(u, b, evs[..j], now);
            && Ready(t, b, evs[j], now) && Valid(Settle(t, b, evs[j], now))
            && AllReady(Settle(t, b, evs[j], now), b, evs[j + 1..], now)
            && SettleAll(u, b, evs, now) == SettleAll(Settle(t, b, evs[j], now), b, evs[j + 1..], now)
  {
    var q, e, r := evs[..j], evs[j], evs[j + 1..];
    assert evs == (q + [e]) + r && q + [e] == evs[..j + 1];
    ReadyParts(u, b, q + [e], r, now);
    SettleLast(u, b, q, e, now);
    SettleConcat(u, b, q + [e], r, now);
  }

  lemma OneMoreCovered(u: Store, b: Binding, e: Event, now: int, evs: seq<Event>, j: nat, later: int)
    requires Valid(u) && AllReady(u, b, evs, later) && j < |evs| && AllLinked(u, b, evs[..j], later)
    requires Covered(u, b, e, now, evs[j], later)
    ensures var v := Settle(u, b, e, now);
            && Valid(v) && AllReady(v, b, evs, later) && SettleAll(v, b, evs, later) == SettleAll(u, b, evs, later)
  {
    var v, q := Settle(u, b, e, now), evs[..j];
    SettleKeeps(u, b, e, now);
    forall i | 0 <= i < |evs| ensures Ready(v, b, evs[i], later) {
      assert Ready(u, b, evs[i], later);
      ReadyAnytime(u, b, evs[i], later, now);
      ReadyAnytime(v, b, evs[i], now, later);
    }
    if LinkOf(u, b, e).Some? {
      AlikeLater(u, b, e, now, evs[j], later);
      SettledAlike(u, v, b, q, evs[j], later);
    } else {
      SettledGrown(u, b, q, e, now, evs[j], later);
    }
    SplitAt(u, b, evs, j, later);
    SplitAt(v, b, evs, j, later);
  }

  // ---------- what a batch leaves of the links ----------

  // Links that were there keep their origin, and new ones are imported.
  predicate OriginKept(s: Store, u: Store, b: Binding, ev: Event) {
    match LinkOf(s, b, ev)
    case Some(l) =>
      l in s.links && l in u.links && LinkOf(u, b, ev) == Some(l) && u.links[l].origin == s.links[l].origin
    case None =>
      match LinkOf(u, b, ev) case None => true case Some(l) => l in u.links && u.links[l].origin == Imported
  }

  lemma SettleKeepsOrigin(s: Store, u: Store, b: Binding, e: Event, now: int, ev: Event)
    requires Valid(u) && Ready(u, b, e, now) && OriginKept(s, u, b, ev)
    ensures OriginKept(s, Settle(u, b, e, now), b, ev)
  {
    var t := Settle(u, b, e, now);
    if LinkOf(u, b, e).Some? {
      AssignKeepsShape(u, b, e, now);
      ShapeDecides(u, t, b, ev, now);
    } else {
      GrowLinks(u, b, e, now, ev);
    }
  }

  lemma {:induction false} BatchKeepsOrigin(s: Store, b: Binding, p: seq<Event>, now: int, ev: Event)
    requires Valid(s) && AllReady(s, b, p, now)
    ensures OriginKept(s, SettleAll(s, b, p, now), b, ev)
    decreases |p|
  {
    if p != [] {
      var p1, e := p[..|p| - 1], p[|p| - 1];
      assert p == p1 + [e];
      SettleLast(s, b, p1, e, now);
      BatchKeepsOrigin(s, b, p1, now, ev);
      SettleKeepsOrigin(s, SettleAll(s, b, p1, now), b, e, now, ev);
    }
  }

  lemma StillCovered(s: Store, b: Binding, p: seq<Event>, e: Event, now: int, e2: Event, later: int)
    requires Valid(s) && AllReady(s, b, p, now) && Covered(s, b, e, now, e2, later)
    ensures Covered(SettleAll(s, b, p, now), b, e, now, e2, later)
  {
    var u := SettleAll(s, b, p, now);
    BatchKeepsOrigin(s, b, p, now, e);
    assert Ready(u, b, e, now);
    ReadyAnytime(s, b, e2, later, now);
    ReadyAnytime(u, b, e2, now, later);
  }

  lemma StillReady(s: Store, b: Binding, p: seq<Event>, now: int, evs: seq<Event>, later: int)
    requires Valid(s) && AllReady(s, b, p, now) && AllReady(s, b, evs, later)
    ensures AllReady(SettleAll(s, b, p, now), b, evs, later)
  {
    AllReadyAnytime(s, b, evs, later, now);
    ReadyAfter(s, b, p, evs, now);
    AllReadyAnytime(SettleAll(s, b, p, now), b, evs, now, later);
  }

  lemma CoveredAreLinked(s: Store, b: Binding, p: seq<Event>, now: int, evs: seq<Event>, later: int)
    requires Valid(s) && AllReady(s, b, p, now) && AllReady(s, b, evs, later) && AllCovered(s, b, p, now, evs, later)
    ensures AllLinked(SettleAll(s, b, p, now), b, evs[..|p|], later)
  {
    var u := SettleAll(s, b, p, now);
    StillReady(s, b, p, now, evs, later);
    forall i | 0 <= i < |p| ensures Linked(u, b, evs[..|p|][i], later) {
      assert Covered(s, b, p[i], now, evs[i], later);
      assert Linked(u, b, p[i], now) && Ready(u, b, evs[i], later);
    }
  }

  // ---------- the two imports ----------

  lemma CoveredParts(s: Store, b: Binding, p: seq<Event>, e: Event, now: int, evs: seq<Event>, later: int)
    requires AllCovered(s, b, p + [e], now, evs, later)
    ensures AllCovered(s, b, p, now, evs, later) && |p| < |evs| && Covered(s, b, e, now, evs[|p|], later)
  {
    var all := p + [e];
    assert forall i :: 0 <= i < |p| ==> all[i] == p[i];
    assert Covered(s, b, all[|p|], now, evs[|p|], later);
  }

  lemma LastCovered(s: Store, b: Binding, p: seq<Event>, e: Event, now: int, evs: seq<Event>, later: int)
    requires Valid(s) && AllReady(s, b, p + [e], now) && AllReady(s, b, evs, later)
    requires AllCovered(s, b, p + [e], now, evs, later)
    ensures AllReady(s, b, p, now) && AllReady(SettleAll(s, b, p, now), b, evs, later)
    ensures AllReady(SettleAll(s, b, p + [e], now), b, evs, later)
    ensures SettleAll(SettleAll(s, b, p + [e], now), b, evs, later) ==
            SettleAll(SettleAll(s, b, p, now), b, evs, later)
  {
    CoveredParts(s, b, p, e, now, evs, later);
    SettleLast(s, b, p, e, now);
    StillReady(s, b, p, now, evs, later);
    CoveredAreLinked(s, b, p, now, evs, later);
    StillCovered(s, b, p, e, now, evs[|p|], later);
    OneMoreCovered(SettleAll(s, b, p, now), b, e, now, evs, |p|, later);
  }

  lemma {:induction false} SettledLater(s: Store, b: Binding, p: seq<Event>, now: int, evs: seq<Event>, later: int)
    requires Valid(s) && AllReady(s, b, p, now) && AllReady(s, b, evs, later) && AllCovered(s, b, p, now, evs, later)
    ensures AllReady(SettleAll(s, b, p, now), b, evs, later)
    ensures SettleAll(SettleAll(s, b, p, now), b, evs, later) == SettleAll(s, b, evs, later)
    decreases |p|
  {
    if p != [] {
      var p1, e := p[..|p| - 1], p[|p| - 1];
      assert p == p1 + [e];
      LastCovered(s, b, p1, e, now, evs, later);
      CoveredParts(s, b, p1, e, now, evs, later);
      SettledLater(s, b, p1, now, evs, later);
    }
  }

  // Main result: a batch that was imported up to some event, and is imported in full at a later
  // time with its events as they are by then, leaves the tables of the later import alone.
  lemma LaterReplayConverges(s: Store, b: Binding, p: seq<Event>, now: int, evs: seq<Event>, later: int)
    requires Valid(s) && AllReady(s, b, p, now) && AllReady(s, b, evs, later) && AllCovered(s, b, p, now, evs, later)
    ensures var stopped, once := ApplyEvents(s, b, p, now), ApplyEvents(s, b, evs, later);
            && stopped.ok && once.ok
            && var again := ApplyEvents(stopped.store, b, evs, later);
            && again.ok && SameTables(again.store, once.store)
  {
    ApplyIsSettleAll(s, s, b, p, now);
    ApplyIsSettleAll(s, s, b, evs, later);
    SettledLater(s, b, p, now, evs, later);
    ApplyIsSettleAll(SettleAll(s, b, p, now), ApplyEvents(s, b, p, now).store, b, evs, later);
  }

  // ---------- the condition is exact ----------

  // The reminder has the schedule the event gave it.
  predicate HasSchedule(t: Task, f: Task) {
    t.start == f.start && t.rrule == f.rrule && t.status == f.status && t.finish == f.finish
  }

  lemma TwiceExactly(t: Task, f: Task, g: Task, origin: Origin)
    requires FromImport(f) && FromImport(g)
    requires f.status == Scheduled ==> f.finish.None?
    ensures AssignTask(AssignTask(t, f, origin), g, origin) == AssignTask(t, g, origin) <==>
            Overrides(origin, f, g) || HasSchedule(t, f)
  {
  }

  lemma SameUpdates(m: map<int, Task>, x: int, t: Task, u: Task)
    ensures m[x := t] == m[x := u] <==> t == u
  {
    assert m[x := t][x] == t && m[x := u][x] == u;
  }

  lemma AssignedTwice(s: Store, b: Binding, e: Event, now: int, e2: Event, later: int)
    requires Linked(s, b, e, now) && Linked(s, b, e2, later) && e.id == e2.id
    ensures var first := Assign(s, b, e, now);
            var l := s.links[TargetLink(s, b, e)];
            var f, g := EventFields(e, b, now), EventFields(e2, b, later);
            && Linked(first, b, e2, later)
            && (SameTables(Assign(first, b, e2, later), Assign(s, b, e2, later)) <==>
                Overrides(l.origin, f, g) || HasSchedule(s.tasks[l.taskId], f))
  {
    var first := Assign(s, b, e, now);
    AssignKeepsShape(s, b, e, now);
    ShapeDecides(s, first, b, e2, later);
    var l := s.links[TargetLink(s, b, e)];
    var t, f, g := s.tasks[l.taskId], EventFields(e, b, now), EventFields(e2, b, later);
    var twice, once := AssignTask(AssignTask(t, f, l.origin), g, l.origin), AssignTask(t, g, l.origin);
    assert Assign(first, b, e2, later).tasks == s.tasks[l.taskId := twice];
    assert Assign(first, b, e2, later).links == Assign(s, b, e2, later).links;
    FieldsAreFromImport(e, b, now);
    FieldsAreFromImport(e2, b, later);
    TwiceExactly(t, f, g, l.origin);
    SameUpdates(s.tasks, l.taskId, twice, once);
  }

  // For one linked event: the second import alone decides the tables if and only if it overrides
  // the first, or the first changed nothing of the schedule.
  lemma LaterReplayExactly(s: Store, b: Binding, e: Event, now: int, e2: Event, later: int)
    requires Linked(s, b, e, now) && Linked(s, b, e2, later) && e.id == e2.id
    ensures var l := s.links[TargetLink(s, b, e)];
            var f, g := EventFields(e, b, now), EventFields(e2, b, later);
            var again := ApplyEvent(ApplyEvent(s, b, e, now).store, b, e2, later);
            SameTables(again.store, ApplyEvent(s, b, e2, later).store) <==>
            Overrides(l.origin, f, g) || HasSchedule(s.tasks[l.taskId], f)
  {
    var first, direct := ApplyEvent(s, b, e, now).store, Assign(s, b, e, now);
    AssignedTwice(s, b, e, now, e2, later);
    ApplyIsAssign(s, b, e, now);
    ApplyIsAssign(s, b, e2, later);
    TablesDecide(direct, first, b, e2, later);
    ApplyIsSettle(first, b, e2, later);
  }
}
