/** Which events create tasks, which leave an exported reminder alone, and where a replay does not
    converge. */
module ImportTasks {
  import opened Text
  import opened ImportStore
  import opened ImportReplay

  // ---------- when an event creates a task ----------

  // A new foreign event, or an event whose link leads to a deleted task.
  predicate Creates(s: Store, b: Binding, ev: Event, now: int) {
    && !ev.cancelled && MapEvent(ev, b, now).Some?
    && match Resolve(s, b, ev)
       case None => OwnTask(ev).None?
       case Some(l) => !Live(s, s.links[l].taskId)
  }

  lemma TaskCreatedExactly(s: Store, b: Binding, ev: Event, now: int)
    ensures ApplyEvent(s, b, ev, now).store.nextTask == s.nextTask + if Creates(s, b, ev, now) then 1 else 0
  {
  }

  // An event with this app's property adds a task only through a link to a deleted one.
  lemma OwnEventNeedsNoTask(s: Store, b: Binding, ev: Event, now: int)
    requires OwnTask(ev).Some?
    ensures ApplyEvent(s, b, ev, now).store.nextTask != s.nextTask ==>
              Resolve(s, b, ev).Some? && !Live(s, s.links[Resolve(s, b, ev).value].taskId)
  {
  }

  // ---------- one task for each foreign event ----------

  function NewIds(s: Store, b: Binding, evs: seq<Event>): set<string> {
    set i | 0 <= i < |evs| && LinkOf(s, b, evs[i]).None? :: evs[i].id
  }

  function LinkById(s: Store, b: Binding, id: string): Option<int> {
    EventLink(s.links, s.nextLink - 1, b.calendarId, id)
  }

  // The event's link leads to a task created since s.
  predicate CreatedSince(s: Store, t: Store, b: Binding, id: string) {
    match LinkById(t, b, id)
    case None => false
    case Some(l) => t.links[l].origin == Imported && s.nextTask <= t.links[l].taskId < t.nextTask
  }

  function CreatedFor(s: Store, t: Store, b: Binding, id: string): int
    requires CreatedSince(s, t, b, id)
  {
    t.links[LinkById(t, b, id).value].taskId
  }

  ghost predicate OneEach(s: Store, t: Store, b: Binding, ids: set<string>) {
    && t.nextTask == s.nextTask + |ids|
    && (forall id :: id in ids ==> CreatedSince(s, t, b, id))
    && (forall id, jd :: id in ids && jd in ids && CreatedFor(s, t, b, id) == CreatedFor(s, t, b, jd) ==> id == jd)
    && (forall ev: Event :: LinkOf(t, b, ev).Some? <==> LinkOf(s, b, ev).Some? || ev.id in ids)
  }

  lemma NewIdsAppend(s: Store, b: Binding, p: seq<Event>, e: Event)
    ensures NewIds(s, b, p + [e]) == NewIds(s, b, p) + if LinkOf(s, b, e).None? then {e.id} else {}
  {
    var all := p + [e];
    assert forall i :: 0 <= i < |p| ==> all[i] == p[i];
    assert all[|p|] == e;
    forall id | id in NewIds(s, b, p) ensures id in NewIds(s, b, all) {
      var i :| 0 <= i < |p| && LinkOf(s, b, p[i]).None? && p[i].id == id;
      assert all[i].id == id;
    }
  }

  lemma ShapeKeepsCreated(s: Store, u: Store, t: Store, b: Binding, id: string)
    requires SameShape(u, t) && CreatedSince(s, u, b, id)
    ensures CreatedSince(s, t, b, id) && CreatedFor(s, t, b, id) == CreatedFor(s, u, b, id)
  {
    SameLink(u.links, t.links, u.nextLink - 1, b.calendarId, id);
  }

  lemma ShapeKeepsOneEach(s: Store, u: Store, t: Store, b: Binding, ids: set<string>)
    requires OneEach(s, u, b, ids) && SameShape(u, t)
    ensures OneEach(s, t, b, ids)
  {
    forall id | id in ids ensures CreatedSince(s, t, b, id) && CreatedFor(s, t, b, id) == CreatedFor(s, u, b, id) {
      ShapeKeepsCreated(s, u, t, b, id);
    }
    forall ev: Event ensures LinkOf(t, b, ev) == LinkOf(u, b, ev) {
      SameLink(u.links, t.links, u.nextLink - 1, b.calendarId, ev.id);
    }
  }

  lemma GrowLinkById(u: Store, b: Binding, e: Event, now: int, id: string)
    requires Valid(u) && Foreign(u, b, e, now)
    ensures LinkById(Grow(u, b, e, now), b, id) == if id == e.id then Some(u.nextLink) else LinkById(u, b, id)
  {
    LinksBelow(u.links, u.nextLink - 1, u.nextLink, NewLink(u.nextTask, b, e, Imported), b.calendarId, id);
  }

  lemma GrowCreates(s: Store, u: Store, b: Binding, e: Event, now: int, ids: set<string>, id: string)
    requires Valid(u) && OneEach(s, u, b, ids) && Foreign(u, b, e, now) && id in ids + {e.id}
             && s.nextTask <= u.nextTask
    ensures var t := Grow(u, b, e, now);
            CreatedSince(s, t, b, id) &&
            if id == e.id then CreatedFor(s, t, b, id) == u.nextTask
            else id in ids && CreatedFor(s, t, b, id) == CreatedFor(s, u, b, id) < u.nextTask
  {
    GrowLinkById(u, b, e, now, id);
    if id != e.id { assert CreatedSince(s, u, b, id); }
  }

  lemma GrowKeepsOneEach(s: Store, u: Store, b: Binding, e: Event, now: int, ids: set<string>)
    requires Valid(u) && OneEach(s, u, b, ids) && Foreign(u, b, e, now) && e.id !in ids
    ensures OneEach(s, Grow(u, b, e, now), b, ids + {e.id})
  {
    var t := Grow(u, b, e, now);
    forall id | id in ids + {e.id} ensures CreatedSince(s, t, b, id) { GrowCreates(s, u, b, e, now, ids, id); }
    forall id, jd | id in ids + {e.id} && jd in ids + {e.id} && CreatedFor(s, t, b, id) == CreatedFor(s, t, b, jd)
      ensures id == jd
    {
      GrowCreates(s, u, b, e, now, ids, id);
      GrowCreates(s, u, b, e, now, ids, jd);
    }
    forall ev: Event ensures LinkOf(t, b, ev).Some? <==> LinkOf(s, b, ev).Some? || ev.id in ids + {e.id} {
      GrowLinks(u, b, e, now, ev);
      assert LinkOf(u, b, ev).Some? <==> LinkOf(s, b, ev).Some? || ev.id in ids;
      if ev.id == e.id { assert LinkOf(u, b, e).None?; }
    }
  }

  lemma OneMoreLinked(s: Store, u: Store, b: Binding, e: Event, now: int, ids: set<string>, more: set<string>)
    requires OneEach(s, u, b, ids) && Linked(u, b, e, now)
    requires more == ids + if LinkOf(s, b, e).None? then {e.id} else {}
    ensures OneEach(s, Assign(u, b, e, now), b, more)
  {
    assert LinkOf(u, b, e).Some? <==> LinkOf(s, b, e).Some? || e.id in ids;
    assert more == ids;
    AssignKeepsShape(u, b, e, now);
    ShapeKeepsOneEach(s, u, Assign(u, b, e, now), b, ids);
  }

  lemma OneMoreForeign(s: Store, u: Store, b: Binding, e: Event, now: int, ids: set<string>, more: set<string>)
    requires Valid(u) && OneEach(s, u, b, ids) && Foreign(u, b, e, now)
    requires more == ids + if LinkOf(s, b, e).None? then {e.id} else {}
    ensures OneEach(s, Grow(u, b, e, now), b, more)
  {
    assert LinkOf(u, b, e).Some? <==> LinkOf(s, b, e).Some? || e.id in ids;
    GrowKeepsOneEach(s, u, b, e, now, ids);
  }

  lemma OneMoreEach(s: Store, u: Store, b: Binding, p: seq<Event>, e: Event, now: int)
    requires Valid(u) && OneEach(s, u, b, NewIds(s, b, p)) && Ready(u, b, e, now)
    ensures OneEach(s, Settle(u, b, e, now), b, NewIds(s, b, p + [e]))
  {
    NewIdsAppend(s, b, p, e);
    if LinkOf(u, b, e).Some? {
      OneMoreLinked(s, u, b, e, now, NewIds(s, b, p), NewIds(s, b, p + [e]));
    } else {
      OneMoreForeign(s, u, b, e, now, NewIds(s, b, p), NewIds(s, b, p + [e]));
    }
  }

  lemma TablesKeepOneEach(s: Store, u: Store, t: Store, b: Binding, ids: set<string>)
    requires OneEach(s, u, b, ids) && SameTables(u, t)
    ensures OneEach(s, t, b, ids)
  {
    ShapeKeepsOneEach(s, u, t, b, ids);
  }

  lemma {:induction false} SettledOneEach(s: Store, b: Binding, evs: seq<Event>, now: int)
    requires Valid(s) && AllReady(s, b, evs, now)
    ensures OneEach(s, SettleAll(s, b, evs, now), b, NewIds(s, b, evs))
    decreases |evs|
  {
    if evs == [] {
      assert NewIds(s, b, evs) == {};
    } else {
      var p, e := evs[..|evs| - 1], evs[|evs| - 1];
      assert evs == p + [e];
      SettleLast(s, b, p, e, now);
      SettledOneEach(s, b, p, now);
      OneMoreEach(s, SettleAll(s, b, p, now), b, p, e, now);
    }
  }

  // Main result: while linked tasks stay undeleted, an import creates exactly one task for each
  // distinct new foreign event, in bijection with the new task ids.
  lemma OneTaskPerForeignEvent(s: Store, b: Binding, evs: seq<Event>, now: int)
    requires Valid(s) && AllReady(s, b, evs, now)
    ensures var r := ApplyEvents(s, b, evs, now);
            r.ok && OneEach(s, r.store, b, NewIds(s, b, evs))
  {
    ApplyIsSettleAll(s, s, b, evs, now);
    SettledOneEach(s, b, evs, now);
    TablesKeepOneEach(s, SettleAll(s, b, evs, now), ApplyEvents(s, b, evs, now).store, b, NewIds(s, b, evs));
  }

  // ---------- where it fails ----------

  // One delivery through some binding at some time.
  datatype Incoming = Incoming(b: Binding, ev: Event, now: int)

  // Deliveries one after the other; a refused one does not stop those of later syncs.
  function Deliver(s: Store, ins: seq<Incoming>): Store
    decreases |ins|
  {
    if ins == [] then s else Deliver(ApplyEvent(s, ins[0].b, ins[0].ev, ins[0].now).store, ins[1..])
  }

  // The delivery finds link l, whose task is deleted.
  predicate HitsDead(s: Store, l: int, d: Incoming) {
    && !d.ev.cancelled && MapEvent(d.ev, d.b, d.now).Some? && LinkOf(s, d.b, d.ev) == Some(l)
    && l in s.links && !Live(s, s.links[l].taskId)
  }

  predicate AllHitDead(s: Store, l: int, ins: seq<Incoming>) {
    forall i :: 0 <= i < |ins| ==> HitsDead(s, l, ins[i])
  }

  // Once the linked task is deleted every delivery of the event, through whatever binding and
  // whenever it comes, adds a task: the link update does not write the new task id.
  lemma {:induction false} DeletedTargetDuplicates(s: Store, l: int, ins: seq<Incoming>)
    requires Valid(s) && AllHitDead(s, l, ins)
    ensures Deliver(s, ins).nextTask == s.nextTask + |ins|
    decreases |ins|
  {
    if ins != [] {
      var d := ins[0];
      assert HitsDead(s, l, d);
      var t := ApplyEvent(s, d.b, d.ev, d.now).store;
      Recreated(s, l, d);
      forall i | 0 <= i < |ins[1..]| ensures HitsDead(t, l, ins[1..][i]) {
        assert HitsDead(s, l, ins[i + 1]);
        StillDead(s, t, l, d, ins[i + 1]);
      }
      RecreatedIsValid(s, t, l, d.b, d.ev);
      DeletedTargetDuplicates(t, l, ins[1..]);
    }
  }

  lemma Recreated(s: Store, l: int, d: Incoming)
    requires Valid(s) && HitsDead(s, l, d)
    ensures var t := ApplyEvent(s, d.b, d.ev, d.now).store;
            && t.links == s.links[l := Relinked(s.links[l], d.b, d.ev)] && t.nextLink == s.nextLink
            && t.nextTask == s.nextTask + 1 && t.tasks.Keys == s.tasks.Keys + {s.nextTask}
            && !Live(t, s.links[l].taskId)
  {
    assert Resolve(s, d.b, d.ev) == Some(l);
    assert s.links[l].taskId < s.nextTask;
  }

  lemma StillDead(s: Store, t: Store, l: int, d: Incoming, other: Incoming)
    requires HitsDead(s, l, d) && HitsDead(s, l, other)
    requires t.links == s.links[l := Relinked(s.links[l], d.b, d.ev)] && t.nextLink == s.nextLink
    requires !Live(t, s.links[l].taskId)
    ensures HitsDead(t, l, other)
  {
    SameLink(s.links, t.links, s.nextLink - 1, other.b.calendarId, other.ev.id);
  }

  lemma RecreatedIsValid(s: Store, t: Store, l: int, b: Binding, ev: Event)
    requires Valid(s) && l in s.links && t.links == s.links[l := Relinked(s.links[l], b, ev)]
             && t.nextLink == s.nextLink
    requires t.nextTask == s.nextTask + 1 && t.tasks.Keys == s.tasks.Keys + {s.nextTask}
    ensures Valid(t)
  {
    forall i, j | i in t.links && j in t.links && SameRow(t.links[i], t.links[j]) ensures i == j {
      assert SameRow(s.links[i], s.links[j]);
    }
  }

  // The first delivery of an event with this app's property, when its task has no link.
  predicate Silent(s: Store, b: Binding, ev: Event, now: int) {
    && !ev.cancelled && MapEvent(ev, b, now).Some? && Resolve(s, b, ev).None?
    && OwnTask(ev).Some? && Live(s, OwnTask(ev).value)
  }

  // The stored columns already are what the event says; those of the schedule matter only while
  // the event is not over.
  predicate CarriesEvent(t: Task, b: Binding, ev: Event, now: int)
    requires ev.start.Some?
  {
    && t.title == MappedTitle(ev) && t.description == ev.description && t.groupId == b.groupId
    && (MappedStart(ev, now) > now ==>
          t.start == MappedStart(ev, now) && t.rrule == ev.rrule && t.status == Scheduled && t.finish == None)
  }

  lemma AssignmentIsIdle(t: Task, b: Binding, ev: Event, now: int)
    requires MapEvent(ev, b, now).Some?
    ensures AssignTask(t, EventFields(ev, b, now), Exported) == t <==> CarriesEvent(t, b, ev, now)
  {
  }

  // It links that task without looking at it, so a second delivery changes it unless it
  // already carries the event's fields: here a replay converges only then.
  lemma SilentLinkReplays(s: Store, b: Binding, ev: Event, now: int)
    requires Valid(s) && Silent(s, b, ev, now)
    ensures var x, once := OwnTask(ev).value, ApplyEvent(s, b, ev, now);
            && once.ok && once.store.tasks == s.tasks
            && var twice := ApplyEvent(once.store, b, ev, now);
            && twice.ok
            && (twice.store.tasks == once.store.tasks <==>
                CarriesEvent(s.tasks[x], b, ev, now))
  {
    var x := OwnTask(ev).value;
    var t := ApplyEvent(s, b, ev, now).store;
    assert t.links[s.nextLink] == NewLink(x, b, ev, Exported);
    assert LinkOf(t, b, ev) == Some(s.nextLink);
    assert Linked(t, b, ev, now);
    ApplyIsAssign(t, b, ev, now);
    var a := AssignTask(s.tasks[x], EventFields(ev, b, now), Exported);
    assert Assign(t, b, ev, now).tasks == s.tasks[x := a];
    assert s.tasks[x := a][x] == a;
    AssignmentIsIdle(s.tasks[x], b, ev, now);
    if a == s.tasks[x] { assert s.tasks[x := a] == s.tasks; }
  }

  // ---------- what an event makes of a task ----------

  // Every occurrence of the event that is known is over; next, when there is one, is in the future.
  predicate Over(ev: Event, now: int)
    requires ev.start.Some?
  {
    ev.start.value <= now && (ev.rrule.None? || ev.next.None?)
  }

  // An event maps to done if and only if it has no occurrence left. Then it finished in the past;
  // otherwise it is scheduled in the future and has no finish.
  lemma MappedStatus(ev: Event, b: Binding, now: int)
    requires ev.start.Some? && (ev.next.Some? ==> ev.next.value > now)
    ensures MapEvent(ev, b, now).Some?
    ensures var f := EventFields(ev, b, now);
            && (f.status == Finished <==> Over(ev, now)) && (f.status == Scheduled <==> !Over(ev, now))
            && (f.status == Finished ==> f.start <= now && f.finish.Some? && f.finish.value <= now)
            && (f.status == Scheduled ==> f.start > now && f.finish.None?)
  {
  }

  predicate KeepsChats(s: Store, t: Store) {
    forall x :: x in s.tasks ==>
      x in t.tasks && t.tasks[x].chat == s.tasks[x].chat && t.tasks[x].userId == s.tasks[x].userId
  }

  lemma ThroughLinkKeepsChats(s: Store, linkId: int, b: Binding, ev: Event, f: Task, now: int)
    requires linkId in s.links && s.nextTask !in s.tasks
    ensures KeepsChats(s, UpdateThroughLink(s, linkId, b, ev, f, now))
  {
  }

  lemma CancelKeepsChats(s: Store, linkId: int, policy: DeletePolicy)
    requires linkId in s.links
    ensures KeepsChats(s, ApplyCancelled(s, linkId, policy))
  {
  }

  lemma CreateKeepsChats(s: Store, b: Binding, ev: Event, f: Task, now: int)
    requires s.nextTask !in s.tasks
    ensures KeepsChats(s, CreateImported(s, b, ev, f, now))
  {
  }

  // A reminder that has a delivery chat keeps it, and one without gets none stored by a later
  // import: the chat is set when the row is created.
  lemma StoredChatIsKept(s: Store, b: Binding, ev: Event, now: int)
    requires Valid(s)
    ensures KeepsChats(s, ApplyEvent(s, b, ev, now).store)
  {
    var target, f := Resolve(s, b, ev), MapEvent(ev, b, now);
    if ev.cancelled {
      if LinkOf(s, b, ev).Some? { CancelKeepsChats(s, LinkOf(s, b, ev).value, b.policy); }
    } else if f.Some? {
      if target.Some? { ThroughLinkKeepsChats(s, target.value, b, ev, f.value, now); }
      CreateKeepsChats(s, b, ev, f.value, now);
    }
  }

  lemma FollowedTwice(s: Store, taskId: int, origin: Origin, f: Task, now: int)
    requires taskId in s.tasks && FromImport(f)
    ensures var t := FollowEvent(s, taskId, origin, f, now);
            taskId in t.tasks && FollowEvent(t, taskId, origin, f, now).jobs == t.jobs
  {
    if !Changed(s.tasks[taskId], WithFields(s.tasks[taskId], f, origin)) {
      UnchangedIsWritten(s.tasks[taskId], f, origin);
    }
  }

  // Delivered twice in a row, an event publishes its job once, whether it was linked or new.
  lemma RepeatedDeliveryIsQuiet(s: Store, b: Binding, ev: Event, now: int)
    requires Valid(s) && Ready(s, b, ev, now)
    ensures var t := ApplyEvent(s, b, ev, now).store;
            ApplyEvent(t, b, ev, now).ok && ApplyEvent(t, b, ev, now).store.jobs == t.jobs
  {
    if LinkOf(s, b, ev).Some? {
      RepeatedUpdateIsQuiet(s, b, ev, now);
    } else {
      var t := ApplyEvent(s, b, ev, now).store;
      ApplyIsGrow(s, b, ev, now);
      GrowLinks(s, b, ev, now, ev);
      assert t.links[s.nextLink] == NewLink(s.nextTask, b, ev, Imported) && LinkOf(t, b, ev) == Some(s.nextLink);
      assert t.tasks[s.nextTask] == EventFields(ev, b, now);
    }
  }

  lemma RepeatedUpdateIsQuiet(s: Store, b: Binding, ev: Event, now: int)
    requires Linked(s, b, ev, now)
    ensures var t := ApplyEvent(s, b, ev, now).store;
            ApplyEvent(t, b, ev, now).ok && ApplyEvent(t, b, ev, now).store.jobs == t.jobs
  {
    var t := ApplyEvent(s, b, ev, now).store;
    ApplyIsAssign(s, b, ev, now);
    AssignKeepsShape(s, b, ev, now);
    ShapeDecides(s, t, b, ev, now);
    var l := s.links[TargetLink(s, b, ev)];
    FollowedTwice(s, l.taskId, l.origin, EventFields(ev, b, now), now);
    var f := EventFields(ev, b, now);
    FollowIgnoresLinks(FollowEvent(s, l.taskId, l.origin, f, now), t, l.taskId, l.origin, f, now);
  }

  lemma FollowIgnoresLinks(u: Store, v: Store, taskId: int, origin: Origin, f: Task, now: int)
    requires taskId in u.tasks && u.tasks == v.tasks && u.jobs == v.jobs
    ensures FollowEvent(u, taskId, origin, f, now).jobs == FollowEvent(v, taskId, origin, f, now).jobs
  {
  }

  // ---------- exported reminders ----------

  // A delivery of an event this app exported that maps to done.
  predicate Echo(s: Store, b: Binding, ev: Event, now: int) {
    && !ev.cancelled && MapEvent(ev, b, now).Some? && MapEvent(ev, b, now).value.status == Finished
    && Resolve(s, b, ev).Some?
    && var l := s.links[Resolve(s, b, ev).value];
    && l.origin == Exported && Live(s, l.taskId)
  }

  predicate SameReminder(t: Task, u: Task) {
    && u.status == t.status && u.start == t.start && u.rrule == t.rrule && u.finish == t.finish
    && u.cron == t.cron && u.chat == t.chat && u.muted == t.muted && u.deleted == t.deleted
  }

  predicate SameReminders(s: Store, t: Store) {
    t.tasks.Keys == s.tasks.Keys && forall x :: x in s.tasks ==> SameReminder(s.tasks[x], t.tasks[x])
  }

  lemma EchoIsHarmless(s: Store, b: Binding, ev: Event, now: int)
    requires Echo(s, b, ev, now)
    ensures var r := ApplyEvent(s, b, ev, now);
            r.ok && SameReminders(s, r.store) && r.store.jobs == s.jobs && SameShape(s, r.store)
  {
  }

  lemma {:induction false} SameTaskLink(u: map<int, Link>, v: map<int, Link>, n: int, taskId: int)
    requires u.Keys == v.Keys && forall id :: id in u ==> SameKey(u[id], v[id])
    ensures TaskLink(u, n, taskId) == TaskLink(v, n, taskId)
    decreases n
  {
    if n > 0 { SameTaskLink(u, v, n - 1, taskId); }
  }

  lemma ShapeKeepsEcho(u: Store, v: Store, b: Binding, ev: Event, now: int)
    requires SameShape(u, v) && Echo(u, b, ev, now)
    ensures Echo(v, b, ev, now)
  {
    SameLink(u.links, v.links, u.nextLink - 1, b.calendarId, ev.id);
    if OwnTask(ev).Some? { SameTaskLink(u.links, v.links, u.nextLink - 1, OwnTask(ev).value); }
  }

  predicate AllEchoes(s: Store, ins: seq<Incoming>) {
    forall i :: 0 <= i < |ins| ==> Echo(s, ins[i].b, ins[i].ev, ins[i].now)
  }

  // Any number of echoes, through any bindings and over any time, leaves every task's status,
  // start, rule and finish as they were, and publishes no job.
  lemma {:induction false} EchoesAreHarmless(s: Store, ins: seq<Incoming>)
    requires AllEchoes(s, ins)
    ensures SameReminders(s, Deliver(s, ins)) && Deliver(s, ins).jobs == s.jobs
    decreases |ins|
  {
    if ins != [] {
      assert Echo(s, ins[0].b, ins[0].ev, ins[0].now);
      EchoIsHarmless(s, ins[0].b, ins[0].ev, ins[0].now);
      var t := ApplyEvent(s, ins[0].b, ins[0].ev, ins[0].now).store;
      forall i | 0 <= i < |ins[1..]| ensures Echo(t, ins[1..][i].b, ins[1..][i].ev, ins[1..][i].now) {
        assert Echo(s, ins[i + 1].b, ins[i + 1].ev, ins[i + 1].now);
        ShapeKeepsEcho(s, t, ins[i + 1].b, ins[i + 1].ev, ins[i + 1].now);
      }
      EchoesAreHarmless(t, ins[1..]);
    }
  }
}
