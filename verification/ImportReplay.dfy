/** Replaying an import: an event is an assignment of fixed values to fixed columns, so a batch
    applied again after a failure ends where one application ends. */
module ImportReplay {
  import opened Text
  import opened ImportStore

  // The event is already linked to a live task, or it is foreign and new.
  predicate Ready(s: Store, b: Binding, ev: Event, now: int) {
    && !ev.cancelled && MapEvent(ev, b, now).Some?
    && match LinkOf(s, b, ev)
       case Some(l) => l in s.links && Live(s, s.links[l].taskId)
       case None => OwnTask(ev).None?
  }

  predicate Linked(s: Store, b: Binding, ev: Event, now: int) {
    Ready(s, b, ev, now) && LinkOf(s, b, ev).Some?
  }

  predicate AllReady(s: Store, b: Binding, evs: seq<Event>, now: int) {
    forall i :: 0 <= i < |evs| ==> Ready(s, b, evs[i], now)
  }

  predicate AllLinked(s: Store, b: Binding, evs: seq<Event>, now: int) {
    forall i :: 0 <= i < |evs| ==> Linked(s, b, evs[i], now)
  }

  // Equal but for the jobs published on the way.
  predicate SameTables(u: Store, v: Store) {
    u.tasks == v.tasks && u.links == v.links && u.nextTask == v.nextTask && u.nextLink == v.nextLink
  }

  // ---------- events as assignments ----------

  function AssignTask(t: Task, f: Task, origin: Origin): Task { Written(t, WithFields(t, f, origin)) }

  function TargetLink(s: Store, b: Binding, ev: Event): int
    requires LinkOf(s, b, ev).Some?
  {
    LinkOf(s, b, ev).value
  }

  function EventFields(ev: Event, b: Binding, now: int): Task
    requires MapEvent(ev, b, now).Some?
  {
    MapEvent(ev, b, now).value
  }

  function Assign(s: Store, b: Binding, ev: Event, now: int): Store
    requires Linked(s, b, ev, now)
  {
    var id := TargetLink(s, b, ev);
    var l := s.links[id];
    s.(tasks := s.tasks[l.taskId := AssignTask(s.tasks[l.taskId], EventFields(ev, b, now), l.origin)],
       links := s.links[id := Relinked(l, b, ev)])
  }

  lemma UnchangedIsWritten(t: Task, f: Task, origin: Origin)
    requires !Changed(t, WithFields(t, f, origin))
    ensures AssignTask(t, f, origin) == t
  {
  }

  lemma ApplyIsAssign(s: Store, b: Binding, ev: Event, now: int)
    requires Linked(s, b, ev, now)
    ensures ApplyEvent(s, b, ev, now).ok && SameTables(ApplyEvent(s, b, ev, now).store, Assign(s, b, ev, now))
  {
    var l := s.links[TargetLink(s, b, ev)];
    var t, f := s.tasks[l.taskId], EventFields(ev, b, now);
    if !Changed(t, WithFields(t, f, l.origin)) { UnchangedIsWritten(t, f, l.origin); }
    assert Resolve(s, b, ev) == LinkOf(s, b, ev);
  }

  // ---------- shapes: what decides which rows an event assigns ----------

  predicate SameKey(l: Link, k: Link) { SameEvent(l, k) && l.taskId == k.taskId && l.origin == k.origin }

  predicate SameShape(u: Store, v: Store) {
    && u.tasks.Keys == v.tasks.Keys && u.links.Keys == v.links.Keys
    && u.nextTask == v.nextTask && u.nextLink == v.nextLink
    && (forall id :: id in u.tasks ==> u.tasks[id].deleted == v.tasks[id].deleted)
    && (forall id :: id in u.links ==> SameKey(u.links[id], v.links[id]))
  }

  lemma {:induction false} SameLink(u: map<int, Link>, v: map<int, Link>, n: int, calendarId: string, eventId: string)
    requires u.Keys == v.Keys && forall id :: id in u ==> SameKey(u[id], v[id])
    ensures EventLink(u, n, calendarId, eventId) == EventLink(v, n, calendarId, eventId)
    decreases n
  {
    if n > 0 { SameLink(u, v, n - 1, calendarId, eventId); }
  }

  lemma ShapeDecides(u: Store, v: Store, b: Binding, ev: Event, now: int)
    requires SameShape(u, v)
    ensures LinkOf(u, b, ev) == LinkOf(v, b, ev)
    ensures Ready(u, b, ev, now) <==> Ready(v, b, ev, now)
  {
    SameLink(u.links, v.links, u.nextLink - 1, b.calendarId, ev.id);
  }

  lemma AssignKeepsShape(s: Store, b: Binding, ev: Event, now: int)
    requires Linked(s, b, ev, now)
    ensures SameShape(s, Assign(s, b, ev, now))
  {
  }

  // ---------- an assignment that comes again later need not come now ----------

  // t and u agree outside the columns an event with these fields assigns.
  predicate TasksAlike(t: Task, u: Task, f: Task, origin: Origin) {
    AssignTask(t, f, origin) == AssignTask(u, f, origin)
  }

  predicate FromImport(f: Task) { f.status == Scheduled || f.status == Finished }

  lemma LaterAssignmentWins(t: Task, u: Task, f: Task, origin: Origin, g: Task, other: Origin)
    requires TasksAlike(t, u, f, origin) && FromImport(f) && FromImport(g)
    ensures TasksAlike(AssignTask(t, g, other), AssignTask(u, g, other), f, origin)
  {
    if KeepsOpen(origin, f.status) {
      assert t.(title := u.title, description := u.description, groupId := u.groupId) == u;
    } else {
      assert t.(title := u.title, description := u.description, groupId := u.groupId, start := u.start,
                rrule := u.rrule, status := u.status, finish := u.finish) == u;
    }
  }

  lemma AssignTwice(t: Task, f: Task, origin: Origin)
    requires FromImport(f)
    ensures TasksAlike(t, AssignTask(t, f, origin), f, origin)
  {
  }

  // Both find the event at the same rows.
  predicate SameTarget(u: Store, v: Store, b: Binding, ev: Event, now: int) {
    SameShape(u, v) && Linked(u, b, ev, now) && Linked(v, b, ev, now) && LinkOf(u, b, ev) == LinkOf(v, b, ev)
  }

  function TargetTask(s: Store, b: Binding, ev: Event): int
    requires LinkOf(s, b, ev).Some?
  {
    s.links[TargetLink(s, b, ev)].taskId
  }

  predicate RowsAlike(u: Store, v: Store, b: Binding, ev: Event, now: int)
    requires SameTarget(u, v, b, ev, now)
  {
    var id, x := TargetLink(u, b, ev), TargetTask(u, b, ev);
    && TasksAlike(u.tasks[x], v.tasks[x], EventFields(ev, b, now), u.links[id].origin)
    && Relinked(u.links[id], b, ev) == Relinked(v.links[id], b, ev)
    && (forall y :: y in u.tasks && y != x ==> u.tasks[y] == v.tasks[y])
    && (forall k :: k in u.links && k != id ==> u.links[k] == v.links[k])
  }

  ghost predicate Alike(u: Store, v: Store, b: Binding, ev: Event, now: int) {
    SameTarget(u, v, b, ev, now) && RowsAlike(u, v, b, ev, now)
  }

  lemma AlikeToAssigned(s: Store, b: Binding, ev: Event, now: int)
    requires Linked(s, b, ev, now)
    ensures Alike(s, Assign(s, b, ev, now), b, ev, now)
  {
    var v := Assign(s, b, ev, now);
    AssignKeepsShape(s, b, ev, now);
    ShapeDecides(s, v, b, ev, now);
    var l := s.links[TargetLink(s, b, ev)];
    AssignTwice(s.tasks[l.taskId], EventFields(ev, b, now), l.origin);
  }

  lemma TargetsKept(u: Store, v: Store, b: Binding, ev: Event, now: int, other: Event)
    requires SameTarget(u, v, b, ev, now) && Linked(u, b, other, now)
    ensures SameTarget(u, v, b, other, now)
    ensures SameTarget(Assign(u, b, other, now), Assign(v, b, other, now), b, ev, now)
    ensures TargetLink(Assign(u, b, other, now), b, ev) == TargetLink(u, b, ev)
    ensures TargetTask(Assign(u, b, other, now), b, ev) == TargetTask(u, b, ev)
  {
    ShapeDecides(u, v, b, other, now);
    AssignKeepsShape(u, b, other, now);
    AssignKeepsShape(v, b, other, now);
    ShapeDecides(u, Assign(u, b, other, now), b, ev, now);
    ShapeDecides(v, Assign(v, b, other, now), b, ev, now);
  }

  lemma AlikeStaysAlike(u: Store, v: Store, b: Binding, ev: Event, now: int, other: Event)
    requires Alike(u, v, b, ev, now) && Linked(u, b, other, now)
    ensures Linked(v, b, other, now)
    ensures Alike(Assign(u, b, other, now), Assign(v, b, other, now), b, ev, now)
  {
    TargetsKept(u, v, b, ev, now, other);
    var id, k := TargetLink(u, b, ev), TargetLink(u, b, other);
    var x := TargetTask(u, b, ev);
    if x == TargetTask(u, b, other) {
      var f, g := EventFields(ev, b, now), EventFields(other, b, now);
      LaterAssignmentWins(u.tasks[x], v.tasks[x], f, u.links[id].origin, g, u.links[k].origin);
    }
    assert RowsAlike(Assign(u, b, other, now), Assign(v, b, other, now), b, ev, now);
  }

  lemma AlikeAssignEqual(u: Store, v: Store, b: Binding, ev: Event, now: int)
    requires Alike(u, v, b, ev, now)
    ensures SameTables(Assign(u, b, ev, now), Assign(v, b, ev, now))
  {
    var u1, v1 := Assign(u, b, ev, now), Assign(v, b, ev, now);
    assert forall x :: x in u1.tasks ==> u1.tasks[x] == v1.tasks[x];
    assert forall x :: x in u1.links ==> u1.links[x] == v1.links[x];
  }

  // ---------- batches of linked events ----------

  function AssignAll(s: Store, b: Binding, evs: seq<Event>, now: int): (t: Store)
    requires AllLinked(s, b, evs, now)
    ensures SameShape(s, t) && t.jobs == s.jobs
    decreases |evs|
  {
    if evs == [] then s
    else
      AssignKeepsShape(s, b, evs[0], now);
      StillLinked(s, b, evs, now);
      AssignAll(Assign(s, b, evs[0], now), b, evs[1..], now)
  }

  lemma StillLinked(s: Store, b: Binding, evs: seq<Event>, now: int)
    requires AllLinked(s, b, evs, now) && evs != []
    ensures AllLinked(Assign(s, b, evs[0], now), b, evs[1..], now)
  {
    AssignKeepsShape(s, b, evs[0], now);
    ShapeKeepsLinked(s, Assign(s, b, evs[0], now), b, evs[1..], now);
  }

  lemma ShapeKeepsLinked(u: Store, v: Store, b: Binding, evs: seq<Event>, now: int)
    requires SameShape(u, v) && AllLinked(u, b, evs, now)
    ensures AllLinked(v, b, evs, now)
  {
    forall i | 0 <= i < |evs| ensures Linked(v, b, evs[i], now) {
      assert Linked(u, b, evs[i], now);
      ShapeDecides(u, v, b, evs[i], now);
    }
  }

  lemma {:induction false} AlikeAfterAll(u: Store, v: Store, b: Binding, ev: Event, now: int, evs: seq<Event>)
    requires Alike(u, v, b, ev, now) && AllLinked(u, b, evs, now)
    ensures AllLinked(v, b, evs, now)
    ensures Alike(AssignAll(u, b, evs, now), AssignAll(v, b, evs, now), b, ev, now)
    decreases |evs|
  {
    ShapeKeepsLinked(u, v, b, evs, now);
    if evs != [] {
      AlikeStaysAlike(u, v, b, ev, now, evs[0]);
      StillLinked(u, b, evs, now);
      StillLinked(v, b, evs, now);
      AlikeAfterAll(Assign(u, b, evs[0], now), Assign(v, b, evs[0], now), b, ev, now, evs[1..]);
    }
  }

  lemma {:induction false} AssignAllAppend(s: Store, b: Binding, evs: seq<Event>, ev: Event, now: int)
    requires AllLinked(s, b, evs + [ev], now)
    ensures AllLinked(s, b, evs, now) && Linked(AssignAll(s, b, evs, now), b, ev, now)
    ensures AssignAll(s, b, evs + [ev], now) == Assign(AssignAll(s, b, evs, now), b, ev, now)
    decreases |evs|
  {
    assert forall i :: 0 <= i < |evs| ==> (evs + [ev])[i] == evs[i];
    assert (evs + [ev])[|evs|] == ev;
    assert AllLinked(s, b, evs, now) && Linked(s, b, ev, now);
    ShapeDecides(s, AssignAll(s, b, evs, now), b, ev, now);
    if evs == [] {
      assert evs + [ev] == [ev] && [ev][1..] == [];
      StillLinked(s, b, [ev], now);
    } else {
      assert (evs + [ev])[1..] == evs[1..] + [ev];
      StillLinked(s, b, evs + [ev], now);
      AssignAllAppend(Assign(s, b, evs[0], now), b, evs[1..], ev, now);
    }
  }

  // ---------- new foreign events ----------

  predicate Foreign(s: Store, b: Binding, ev: Event, now: int) {
    Ready(s, b, ev, now) && LinkOf(s, b, ev).None?
  }

  function Grow(s: Store, b: Binding, ev: Event, now: int): Store
    requires Foreign(s, b, ev, now)
  {
    AddLink(AddTask(s, EventFields(ev, b, now)), NewLink(s.nextTask, b, ev, Imported))
  }

  lemma ApplyIsGrow(s: Store, b: Binding, ev: Event, now: int)
    requires Foreign(s, b, ev, now)
    ensures ApplyEvent(s, b, ev, now).ok && SameTables(ApplyEvent(s, b, ev, now).store, Grow(s, b, ev, now))
  {
    assert Resolve(s, b, ev) == None;
  }

  lemma {:induction false} LinksBelow(
      links: map<int, Link>, n: int, m: int, l: Link, calendarId: string, eventId: string)
    requires n < m
    ensures EventLink(links[m := l], n, calendarId, eventId) == EventLink(links, n, calendarId, eventId)
    decreases n
  {
    if n > 0 { LinksBelow(links, n - 1, m, l, calendarId, eventId); }
  }

  // Only the new event is found at the new link.
  lemma GrowLinks(s: Store, b: Binding, ev: Event, now: int, other: Event)
    requires Foreign(s, b, ev, now) && Valid(s)
    ensures LinkOf(Grow(s, b, ev, now), b, other) == if other.id == ev.id then Some(s.nextLink) else LinkOf(s, b, other)
  {
    LinksBelow(s.links, s.nextLink - 1, s.nextLink, NewLink(s.nextTask, b, ev, Imported), b.calendarId, other.id);
  }

  lemma GrowIsValid(s: Store, b: Binding, ev: Event, now: int)
    requires Foreign(s, b, ev, now) && Valid(s)
    ensures Valid(Grow(s, b, ev, now))
  {
    var t := Grow(s, b, ev, now);
    forall i, j | i in t.links && j in t.links && SameRow(t.links[i], t.links[j]) ensures i == j {
      assert i != s.nextLink ==> i in s.links && (IsFor(s.links[i], b.calendarId, ev.id) ==> false);
      assert j != s.nextLink ==> j in s.links && (IsFor(s.links[j], b.calendarId, ev.id) ==> false);
    }
  }

  lemma GrowKeepsReady(s: Store, b: Binding, ev: Event, now: int, other: Event, later: int)
    requires Foreign(s, b, ev, now) && Valid(s) && Ready(s, b, other, later)
    ensures Ready(Grow(s, b, ev, now), b, other, later)
    ensures Linked(s, b, other, later) ==>
              && Linked(Grow(s, b, ev, now), b, other, later)
              && LinkOf(Grow(s, b, ev, now), b, other) == LinkOf(s, b, other)
  {
    GrowLinks(s, b, ev, now, other);
  }

  lemma SwapUpdates<V>(m: map<int, V>, i: int, v: V, j: int, w: V)
    requires i != j
    ensures m[i := v][j := w] == m[j := w][i := v]
  {
  }

  lemma AssignThenGrow(s: Store, b: Binding, ev: Event, now: int, other: Event, later: int)
    requires Foreign(s, b, ev, now) && Valid(s) && Linked(s, b, other, later)
    ensures Linked(Grow(s, b, ev, now), b, other, later) && Foreign(Assign(s, b, other, later), b, ev, now)
    ensures Assign(Grow(s, b, ev, now), b, other, later) == Grow(Assign(s, b, other, later), b, ev, now)
  {
    GrowKeepsReady(s, b, ev, now, other, later);
    AssignKeepsShape(s, b, other, later);
    ShapeDecides(s, Assign(s, b, other, later), b, ev, now);
    var id := TargetLink(s, b, other);
    var x := s.links[id].taskId;
    var after := AssignTask(s.tasks[x], EventFields(other, b, later), s.links[id].origin);
    SwapUpdates(s.tasks, s.nextTask, EventFields(ev, b, now), x, after);
    SwapUpdates(s.links, s.nextLink, NewLink(s.nextTask, b, ev, Imported), id, Relinked(s.links[id], b, other));
  }

  lemma ShapeKeepsValid(u: Store, v: Store)
    requires Valid(u) && SameShape(u, v)
    ensures Valid(v)
  {
    forall i, j | i in v.links && j in v.links && SameRow(v.links[i], v.links[j]) ensures i == j {
      assert SameKey(u.links[i], v.links[i]) && SameKey(u.links[j], v.links[j]);
    }
  }

  lemma {:induction false} AssignAllThenGrow(
      s: Store, b: Binding, ev: Event, now: int, evs: seq<Event>, later: int)
    requires Foreign(s, b, ev, now) && Valid(s) && AllLinked(s, b, evs, later)
    ensures AllLinked(Grow(s, b, ev, now), b, evs, later) && Foreign(AssignAll(s, b, evs, later), b, ev, now)
    ensures AssignAll(Grow(s, b, ev, now), b, evs, later) == Grow(AssignAll(s, b, evs, later), b, ev, now)
    decreases |evs|
  {
    forall i | 0 <= i < |evs| ensures Linked(Grow(s, b, ev, now), b, evs[i], later) {
      GrowKeepsReady(s, b, ev, now, evs[i], later);
    }
    if evs != [] {
      AssignThenGrow(s, b, ev, now, evs[0], later);
      AssignKeepsShape(s, b, evs[0], later);
      ShapeKeepsValid(s, Assign(s, b, evs[0], later));
      StillLinked(s, b, evs, later);
      StillLinked(Grow(s, b, ev, now), b, evs, later);
      AssignAllThenGrow(Assign(s, b, evs[0], later), b, ev, now, evs[1..], later);
    }
  }

  // A row created from an event is what the event's assignment makes of it, also when the event
  // comes again later with other contents.
  lemma AssignAfterGrow(s: Store, b: Binding, ev: Event, now: int, again: Event, later: int)
    requires Foreign(s, b, ev, now) && Valid(s) && Foreign(s, b, again, later) && ev.id == again.id
    ensures Linked(Grow(s, b, ev, now), b, again, later)
    ensures Assign(Grow(s, b, ev, now), b, again, later) == Grow(s, b, again, later)
  {
    GrowLinks(s, b, ev, now, again);
    var t, u := Grow(s, b, ev, now), Grow(s, b, again, later);
    var f := EventFields(again, b, later);
    assert AssignTask(EventFields(ev, b, now), f, Imported) == f;
    assert Assign(t, b, again, later).tasks == u.tasks && Assign(t, b, again, later).links == u.links;
  }

  // ---------- batches ----------

  // One event of a batch, without the jobs it publishes.
  function Settle(s: Store, b: Binding, ev: Event, now: int): Store
    requires Ready(s, b, ev, now)
  {
    if LinkOf(s, b, ev).Some? then Assign(s, b, ev, now) else Grow(s, b, ev, now)
  }

  lemma SettleKeeps(s: Store, b: Binding, ev: Event, now: int)
    requires Ready(s, b, ev, now) && Valid(s)
    ensures Valid(Settle(s, b, ev, now)) && Linked(Settle(s, b, ev, now), b, ev, now)
    ensures forall other :: Ready(s, b, other, now) ==> Ready(Settle(s, b, ev, now), b, other, now)
    ensures forall other :: Linked(s, b, other, now) ==> Linked(Settle(s, b, ev, now), b, other, now)
  {
    if LinkOf(s, b, ev).Some? {
      AssignKeepsShape(s, b, ev, now);
      ShapeKeepsValid(s, Assign(s, b, ev, now));
      forall other ensures Ready(s, b, other, now) <==> Ready(Assign(s, b, ev, now), b, other, now)
        ensures LinkOf(s, b, other) == LinkOf(Assign(s, b, ev, now), b, other)
      {
        ShapeDecides(s, Assign(s, b, ev, now), b, other, now);
      }
    } else {
      GrowIsValid(s, b, ev, now);
      GrowLinks(s, b, ev, now, ev);
      forall other | Ready(s, b, other, now)
        ensures Ready(Grow(s, b, ev, now), b, other, now)
        ensures Linked(s, b, other, now) ==> Linked(Grow(s, b, ev, now), b, other, now)
      {
        GrowKeepsReady(s, b, ev, now, other, now);
      }
    }
  }

  // Whatever was ready or linked before still is.
  ghost predicate KeepsReady(s: Store, t: Store, b: Binding, now: int) {
    && (forall ev :: Ready(s, b, ev, now) ==> Ready(t, b, ev, now))
    && (forall ev :: Linked(s, b, ev, now) ==> Linked(t, b, ev, now))
  }

  lemma SettleOneMore(s: Store, u: Store, b: Binding, evs: seq<Event>, ev: Event, now: int)
    requires Ready(s, b, ev, now) && Valid(u) && KeepsReady(s, u, b, now) && AllLinked(u, b, evs, now)
    ensures Ready(u, b, ev, now) && Valid(Settle(u, b, ev, now))
    ensures AllLinked(Settle(u, b, ev, now), b, evs + [ev], now)
    ensures KeepsReady(s, Settle(u, b, ev, now), b, now)
  {
    assert Ready(u, b, ev, now);
    SettleKeeps(u, b, ev, now);
    var t := Settle(u, b, ev, now);
    forall i | 0 <= i < |evs| + 1 ensures Linked(t, b, (evs + [ev])[i], now) {
      if i < |evs| { assert Linked(u, b, evs[i], now); }
    }
  }

  function SettleAll(s: Store, b: Binding, evs: seq<Event>, now: int): (t: Store)
    requires Valid(s) && AllReady(s, b, evs, now)
    ensures Valid(t) && AllLinked(t, b, evs, now) && KeepsReady(s, t, b, now)
    decreases |evs|
  {
    if evs == [] then s
    else
      var n := |evs| - 1;
      var u := SettleAll(s, b, evs[..n], now);
      SettleOneMore(s, u, b, evs[..n], evs[n], now);
      assert evs[..n] + [evs[n]] == evs;
      Settle(u, b, evs[n], now)
  }

  lemma FixedByOneMore(u: Store, b: Binding, p: seq<Event>, e: Event, now: int)
    requires Valid(u) && AllLinked(u, b, p, now) && AssignAll(u, b, p, now) == u && Ready(u, b, e, now)
    requires AllLinked(Settle(u, b, e, now), b, p + [e], now)
    ensures AssignAll(Settle(u, b, e, now), b, p + [e], now) == Settle(u, b, e, now)
  {
    var t := Settle(u, b, e, now);
    AssignAllAppend(t, b, p, e, now);
    if LinkOf(u, b, e).Some? {
      AlikeToAssigned(u, b, e, now);
      AlikeAfterAll(u, t, b, e, now, p);
      AlikeAssignEqual(u, AssignAll(t, b, p, now), b, e, now);
    } else {
      AssignAllThenGrow(u, b, e, now, p, now);
      AssignAfterGrow(u, b, e, now, e, now);
    }
  }

  lemma SettleLast(s: Store, b: Binding, p: seq<Event>, e: Event, now: int)
    requires Valid(s) && AllReady(s, b, p + [e], now)
    ensures AllReady(s, b, p, now) && Ready(SettleAll(s, b, p, now), b, e, now)
    ensures SettleAll(s, b, p + [e], now) == Settle(SettleAll(s, b, p, now), b, e, now)
  {
    var evs := p + [e];
    assert evs[..|evs| - 1] == p && evs[|evs| - 1] == e;
    assert forall i :: 0 <= i < |p| ==> p[i] == evs[i];
    assert AllReady(s, b, p, now) && Ready(s, b, e, now);
  }

  // A settled batch is a fixed point of its own assignments.
  lemma {:induction false} SettledIsFixed(s: Store, b: Binding, evs: seq<Event>, now: int)
    requires Valid(s) && AllReady(s, b, evs, now)
    ensures AssignAll(SettleAll(s, b, evs, now), b, evs, now) == SettleAll(s, b, evs, now)
    decreases |evs|
  {
    if evs != [] {
      var p, e := evs[..|evs| - 1], evs[|evs| - 1];
      assert evs == p + [e];
      SettleLast(s, b, p, e, now);
      SettledIsFixed(s, b, p, now);
      FixedByOneMore(SettleAll(s, b, p, now), b, p, e, now);
    }
  }

  lemma {:induction false} SettleLinked(s: Store, b: Binding, evs: seq<Event>, now: int)
    requires Valid(s) && AllLinked(s, b, evs, now)
    ensures SettleAll(s, b, evs, now) == AssignAll(s, b, evs, now)
    decreases |evs|
  {
    if evs != [] {
      var n := |evs| - 1;
      assert evs[..n] + [evs[n]] == evs;
      AssignAllAppend(s, b, evs[..n], evs[n], now);
      SettleLinked(s, b, evs[..n], now);
    }
  }

  lemma ReadyParts(s: Store, b: Binding, p: seq<Event>, q: seq<Event>, now: int)
    ensures AllReady(s, b, p + q, now) <==> AllReady(s, b, p, now) && AllReady(s, b, q, now)
  {
    assert forall i :: 0 <= i < |p| ==> (p + q)[i] == p[i];
    assert forall i :: 0 <= i < |q| ==> (p + q)[|p| + i] == q[i];
    if AllReady(s, b, p + q, now) {
      forall i | 0 <= i < |q| ensures Ready(s, b, q[i], now) { assert Ready(s, b, (p + q)[|p| + i], now); }
    }
  }

  lemma ReadyAfter(s: Store, b: Binding, p: seq<Event>, q: seq<Event>, now: int)
    requires Valid(s) && AllReady(s, b, p, now) && AllReady(s, b, q, now)
    ensures AllReady(s, b, p + q, now) && AllReady(SettleAll(s, b, p, now), b, q, now)
  {
    ReadyParts(s, b, p, q, now);
    forall i | 0 <= i < |q| ensures Ready(SettleAll(s, b, p, now), b, q[i], now) {
      assert Ready(s, b, q[i], now);
    }
  }

  lemma SettleLastAfter(s: Store, b: Binding, p: seq<Event>, q: seq<Event>, e: Event, now: int)
    requires Valid(s) && AllReady(s, b, p, now) && AllReady(s, b, q + [e], now)
    ensures AllReady(s, b, q, now) && AllReady(s, b, p + q, now) && AllReady(s, b, p + (q + [e]), now)
    ensures var u := SettleAll(s, b, p, now);
            && AllReady(u, b, q, now) && AllReady(u, b, q + [e], now) && Ready(SettleAll(u, b, q, now), b, e, now)
            && SettleAll(u, b, q + [e], now) == Settle(SettleAll(u, b, q, now), b, e, now)
    ensures Ready(SettleAll(s, b, p + q, now), b, e, now)
    ensures SettleAll(s, b, p + (q + [e]), now) == Settle(SettleAll(s, b, p + q, now), b, e, now)
  {
    ReadyParts(s, b, q, [e], now);
    ReadyAfter(s, b, p, q, now);
    ReadyAfter(s, b, p, q + [e], now);
    SettleLast(SettleAll(s, b, p, now), b, q, e, now);
    assert p + (q + [e]) == p + q + [e];
    SettleLast(s, b, p + q, e, now);
  }

  lemma {:induction false} SettleConcat(s: Store, b: Binding, p: seq<Event>, q: seq<Event>, now: int)
    requires Valid(s) && AllReady(s, b, p, now) && AllReady(s, b, q, now)
    ensures AllReady(s, b, p + q, now) && AllReady(SettleAll(s, b, p, now), b, q, now)
    ensures SettleAll(s, b, p + q, now) == SettleAll(SettleAll(s, b, p, now), b, q, now)
    decreases |q|
  {
    if q == [] {
      assert p + q == p;
    } else {
      var q1, e := q[..|q| - 1], q[|q| - 1];
      assert q == q1 + [e];
      SettleLastAfter(s, b, p, q1, e, now);
      SettleConcat(s, b, p, q1, now);
    }
  }

  // Settling a prefix and then the whole batch is settling the batch.
  lemma SettleAgain(s: Store, b: Binding, p: seq<Event>, q: seq<Event>, now: int)
    requires Valid(s) && AllReady(s, b, p, now) && AllReady(s, b, q, now)
    ensures AllReady(s, b, p + q, now) && AllReady(SettleAll(s, b, p, now), b, p + q, now)
    ensures SettleAll(SettleAll(s, b, p, now), b, p + q, now) == SettleAll(s, b, p + q, now)
  {
    var u := SettleAll(s, b, p, now);
    ReadyAfter(s, b, p, q, now);
    assert AllReady(u, b, p, now);
    SettleConcat(s, b, p, q, now);
    SettleConcat(u, b, p, q, now);
    SettledIsFixed(s, b, p, now);
    SettleLinked(u, b, p, now);
  }

  // ---------- the import itself ----------

  lemma TablesDecide(u: Store, v: Store, b: Binding, ev: Event, now: int)
    requires SameTables(u, v)
    ensures Ready(u, b, ev, now) <==> Ready(v, b, ev, now)
    ensures Ready(u, b, ev, now) ==> SameTables(Settle(u, b, ev, now), Settle(v, b, ev, now))
  {
  }

  lemma ApplyIsSettle(s: Store, b: Binding, ev: Event, now: int)
    requires Ready(s, b, ev, now)
    ensures ApplyEvent(s, b, ev, now).ok && SameTables(ApplyEvent(s, b, ev, now).store, Settle(s, b, ev, now))
  {
    if LinkOf(s, b, ev).Some? { ApplyIsAssign(s, b, ev, now); } else { ApplyIsGrow(s, b, ev, now); }
  }

  lemma {:induction false} ApplyAppend(s: Store, b: Binding, evs: seq<Event>, ev: Event, now: int)
    ensures var first := ApplyEvents(s, b, evs, now);
            ApplyEvents(s, b, evs + [ev], now) == if first.ok then ApplyEvent(first.store, b, ev, now) else first
    decreases |evs|
  {
    if evs == [] {
      assert [] + [ev] == [ev] && [ev][1..] == [];
    } else {
      assert (evs + [ev])[1..] == evs[1..] + [ev];
      var first := ApplyEvent(s, b, evs[0], now);
      if first.ok { ApplyAppend(first.store, b, evs[1..], ev, now); }
    }
  }

  lemma {:induction false} ApplyIsSettleAll(s: Store, v: Store, b: Binding, evs: seq<Event>, now: int)
    requires Valid(s) && AllReady(s, b, evs, now) && SameTables(v, s)
    ensures ApplyEvents(v, b, evs, now).ok
    ensures SameTables(ApplyEvents(v, b, evs, now).store, SettleAll(s, b, evs, now))
    decreases |evs|
  {
    if evs != [] {
      var n := |evs| - 1;
      assert evs[..n] + [evs[n]] == evs;
      ApplyIsSettleAll(s, v, b, evs[..n], now);
      ApplyAppend(v, b, evs[..n], evs[n], now);
      var u := ApplyEvents(v, b, evs[..n], now).store;
      TablesDecide(SettleAll(s, b, evs[..n], now), u, b, evs[n], now);
      ApplyIsSettle(u, b, evs[n], now);
    }
  }

  lemma ReplayIsSettled(s: Store, b: Binding, p: seq<Event>, evs: seq<Event>, now: int)
    requires Valid(s) && AllReady(s, b, p, now) && AllReady(SettleAll(s, b, p, now), b, evs, now)
    ensures var stopped := ApplyEvents(s, b, p, now);
            && stopped.ok
            && var again := ApplyEvents(stopped.store, b, evs, now);
            && again.ok && SameTables(again.store, SettleAll(SettleAll(s, b, p, now), b, evs, now))
  {
    ApplyIsSettleAll(s, s, b, p, now);
    ApplyIsSettleAll(SettleAll(s, b, p, now), ApplyEvents(s, b, p, now).store, b, evs, now);
  }

  // Main result: a batch whose import stopped after any k events and is then imported again in
  // full leaves the same tasks and links as a batch imported once.
  lemma ReplayConverges(s: Store, b: Binding, evs: seq<Event>, k: nat, now: int)
    requires Valid(s) && AllReady(s, b, evs, now) && k <= |evs|
    ensures var stopped, once := ApplyEvents(s, b, evs[..k], now), ApplyEvents(s, b, evs, now);
            && stopped.ok && once.ok
            && var again := ApplyEvents(stopped.store, b, evs, now);
            && again.ok && SameTables(again.store, once.store)
  {
    var p, q := evs[..k], evs[k..];
    assert p + q == evs;
    ReadyParts(s, b, p, q, now);
    SettleAgain(s, b, p, q, now);
    ApplyIsSettleAll(s, s, b, evs, now);
    ReplayIsSettled(s, b, p, evs, now);
  }

  lemma FailedEventChangesNothing(s: Store, b: Binding, ev: Event, now: int)
    requires !ApplyEvent(s, b, ev, now).ok
    ensures ApplyEvent(s, b, ev, now).store == s
  {
  }

  lemma {:induction false} ApplyStops(s: Store, b: Binding, p: seq<Event>, bad: Event, rest: seq<Event>, now: int)
    requires ApplyEvents(s, b, p, now).ok && !ApplyEvent(ApplyEvents(s, b, p, now).store, b, bad, now).ok
    ensures ApplyEvents(s, b, p + [bad] + rest, now) == Outcome(ApplyEvents(s, b, p, now).store, false)
    decreases |p|
  {
    var all := p + [bad] + rest;
    if p == [] {
      assert all[0] == bad;
      FailedEventChangesNothing(s, b, bad, now);
    } else {
      assert all[0] == p[0] && all[1..] == p[1..] + [bad] + rest;
      ApplyStops(ApplyEvent(s, b, p[0], now).store, b, p[1..], bad, rest, now);
    }
  }

  // The same when the first import was given an event it could not apply, whatever came after it:
  // the failed import leaves what came before that event, and a good batch then converges.
  lemma ReplayAfterFailure(
      s: Store, b: Binding, evs: seq<Event>, k: nat, bad: Event, rest: seq<Event>, now: int)
    requires Valid(s) && AllReady(s, b, evs, now) && k <= |evs|
    requires !ApplyEvent(ApplyEvents(s, b, evs[..k], now).store, b, bad, now).ok
    ensures var failed, once := ApplyEvents(s, b, evs[..k] + [bad] + rest, now), ApplyEvents(s, b, evs, now);
            && !failed.ok && once.ok
            && var again := ApplyEvents(failed.store, b, evs, now);
            && again.ok && SameTables(again.store, once.store)
  {
    ReplayConverges(s, b, evs, k, now);
    ApplyStops(s, b, evs[..k], bad, rest, now);
  }
}
