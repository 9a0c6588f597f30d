/** Over all runs of the two-way sync: when a calendar event has at most one task, and that the tasks
    added for events are rows of their own. */
module SyncTasks {
  import opened Text
  import opened CalendarBindings
  import opened ImportStore
  import opened ImportTasks
  import opened Outbox
  import opened ExportPlan
  import opened Sync
  import W = OutboxWorkers

  // ---------- events and the tasks born for them ----------

  datatype Name = Name(calendarId: string, eventId: string)

  // The step delivers a foreign event that stands: not cancelled, with a start that can be read
  // and without this app's property.
  predicate Delivers(step: Step) {
    step.Import? && !step.ev.cancelled && step.ev.start.Some? && OwnTask(step.ev).None?
  }

  function NameOf(step: Step): Name
    requires step.Import?
  {
    Name(step.b.calendarId, step.ev.id)
  }

  function Found(s: Store, n: Name): Option<int> { EventLink(s.links, s.nextLink - 1, n.calendarId, n.eventId) }

  // A link names the event and leads to a task that is not deleted.
  predicate Anchored(s: Store, n: Name) {
    match Found(s, n) case None => false case Some(l) => l in s.links && Live(s, s.links[l].taskId)
  }

  // A delivery that adds a row to the tasks table.
  ghost predicate Bears(w: World, step: Step)
    requires Can(w, step) && W.Inv(w.outbox)
  {
    Delivers(step) && Do(w, step).store.nextTask != w.store.nextTask
  }

  datatype Birth = Birth(name: Name, taskId: int)

  ghost function Births(w: World, steps: seq<Step>): seq<Birth>
    requires W.Inv(w.outbox) && CanRun(w, steps)
    decreases |steps|
  {
    if steps == [] then []
    else
      StepKeepsInv(w, steps[0]);
      var rest := Births(Do(w, steps[0]), steps[1..]);
      if Bears(w, steps[0]) then [Birth(NameOf(steps[0]), w.store.nextTask)] + rest else rest
  }

  // No event bears two tasks, and none that is known bears one.
  predicate AtMostOneEach(births: seq<Birth>, known: set<Name>) {
    && (forall i :: 0 <= i < |births| ==> births[i].name !in known)
    && (forall i, j :: 0 <= i < j < |births| ==> births[i].name != births[j].name)
  }

  // ---------- the exact condition ----------

  // Every delivery of an event that is known or has borne a task finds it anchored.
  ghost predicate Steady(w: World, steps: seq<Step>, known: set<Name>)
    requires W.Inv(w.outbox) && CanRun(w, steps)
    decreases |steps|
  {
    if steps == [] then true
    else
      StepKeepsInv(w, steps[0]);
      var found := !Delivers(steps[0]) || Anchored(w.store, NameOf(steps[0]));
      && (found || NameOf(steps[0]) !in known)
      && Steady(Do(w, steps[0]), steps[1..], if found then known else known + {NameOf(steps[0])})
  }

  lemma BearsUnanchored(w: World, step: Step)
    requires Can(w, step) && W.Inv(w.outbox) && Delivers(step)
    ensures Bears(w, step) <==> !Anchored(w.store, NameOf(step))
  {
    TaskCreatedExactly(w.store, step.b, step.ev, step.now);
  }

  lemma AtMostOneMore(b: Birth, births: seq<Birth>, known: set<Name>)
    ensures AtMostOneEach([b] + births, known) <==> b.name !in known && AtMostOneEach(births, known + {b.name})
  {
    var all := [b] + births;
    assert forall i :: 0 <= i < |births| ==> all[i + 1] == births[i];
    assert all[0] == b;
    if AtMostOneEach(all, known) {
      forall i, j | 0 <= i < j < |births| ensures births[i].name != births[j].name {
        assert all[i + 1].name != all[j + 1].name;
      }
      forall i | 0 <= i < |births| ensures births[i].name !in known + {b.name} {
        assert all[0].name != all[i + 1].name;
      }
    }
  }

  // Main result: over any run of imports, exports, edits, opt-ins and deletions every event has at
  // most one task if and only if each delivery of an event that has one finds a link which still
  // names it and whose task is alive.
  lemma {:induction false} OneTaskPerEvent(w: World, steps: seq<Step>, known: set<Name>)
    requires W.Inv(w.outbox) && CanRun(w, steps)
    ensures AtMostOneEach(Births(w, steps), known) <==> Steady(w, steps, known)
    decreases |steps|
  {
    if steps != [] {
      StepKeepsInv(w, steps[0]);
      var u := Do(w, steps[0]);
      if Delivers(steps[0]) && !Anchored(w.store, NameOf(steps[0])) {
        BearsUnanchored(w, steps[0]);
        AtMostOneMore(Birth(NameOf(steps[0]), w.store.nextTask), Births(u, steps[1..]), known);
        OneTaskPerEvent(u, steps[1..], known + {NameOf(steps[0])});
      } else {
        if Delivers(steps[0]) { BearsUnanchored(w, steps[0]); }
        OneTaskPerEvent(u, steps[1..], known);
      }
    }
  }

  // ---------- the tasks born are distinct rows ----------

  predicate KeepsTasks(s: Store, t: Store) {
    s.tasks.Keys <= t.tasks.Keys && s.nextTask <= t.nextTask
    && (forall x :: s.nextTask <= x < t.nextTask ==> x in t.tasks)
  }

  lemma CancelKeepsTasks(s: Store, linkId: int, policy: DeletePolicy)
    requires linkId in s.links
    ensures KeepsTasks(s, ApplyCancelled(s, linkId, policy))
  {
  }

  lemma ThroughLinkKeepsTasks(s: Store, linkId: int, b: Binding, ev: Event, f: Task, now: int)
    requires linkId in s.links
    ensures KeepsTasks(s, UpdateThroughLink(s, linkId, b, ev, f, now))
  {
  }

  lemma ImportKeepsTasks(s: Store, b: Binding, ev: Event, now: int)
    ensures KeepsTasks(s, ApplyEvent(s, b, ev, now).store)
  {
    var target, f := Resolve(s, b, ev), MapEvent(ev, b, now);
    if ev.cancelled {
      if LinkOf(s, b, ev).Some? { CancelKeepsTasks(s, LinkOf(s, b, ev).value, b.policy); }
    } else if f.Some? && target.Some? {
      ThroughLinkKeepsTasks(s, target.value, b, ev, f.value, now);
    }
  }

  lemma ExecuteKeepsTasks(s: Store, bindings: Bindings, row: Row, a: Answer)
    ensures Execute(s, bindings, row, a).store.tasks == s.tasks
    ensures Execute(s, bindings, row, a).store.nextTask == s.nextTask
  {
  }

  lemma StepKeepsTasks(w: World, step: Step)
    requires Can(w, step) && W.Inv(w.outbox)
    ensures KeepsTasks(w.store, Do(w, step).store)
  {
    match step
    case Import(b, ev, now) => ImportKeepsTasks(w.store, b, ev, now);
    case RunItem(worker, answer, _, _) => ExecuteKeepsTasks(w.store, w.bindings, RowInHand(w, worker), answer);
    case _ =>
  }

  // Ids from lo up, each larger than the one before, of rows in the table.
  predicate FreshRows(births: seq<Birth>, lo: int, s: Store) {
    && (forall i :: 0 <= i < |births| ==> lo <= births[i].taskId < s.nextTask && births[i].taskId in s.tasks)
    && (forall i, j :: 0 <= i < j < |births| ==> births[i].taskId < births[j].taskId)
  }

  lemma FreshRowsCons(b: Birth, births: seq<Birth>, lo: int, s: Store)
    requires FreshRows(births, lo, s)
    ensures b.taskId <= lo ==> FreshRows(births, b.taskId, s)
    ensures b.taskId < lo && b.taskId < s.nextTask && b.taskId in s.tasks ==> FreshRows([b] + births, b.taskId, s)
  {
    assert forall i :: 0 < i < |[b] + births| ==> ([b] + births)[i] == births[i - 1];
  }

  // Each birth is a row of its own: with the condition above the events of a run are in bijection
  // with the rows added for them.
  lemma {:induction false} BornTasksAreDistinct(w: World, steps: seq<Step>)
    requires W.Inv(w.outbox) && CanRun(w, steps)
    ensures FreshRows(Births(w, steps), w.store.nextTask, Run(w, steps).store)
    ensures KeepsTasks(w.store, Run(w, steps).store)
    decreases |steps|
  {
    if steps != [] {
      StepKeepsInv(w, steps[0]);
      StepKeepsTasks(w, steps[0]);
      var u := Do(w, steps[0]);
      BornTasksAreDistinct(u, steps[1..]);
      var name := if steps[0].Import? then NameOf(steps[0]) else Name([], []);
      FreshRowsCons(Birth(name, w.store.nextTask), Births(u, steps[1..]), u.store.nextTask, Run(w, steps).store);
    }
  }
}
