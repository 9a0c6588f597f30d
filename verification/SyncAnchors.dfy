/** Which steps of the two-way sync untie a calendar event from its task, exactly, and two runs
    without any deletion that end with two live tasks for one event. */
module SyncAnchors {
  import opened Text
  import opened CalendarBindings
  import opened ImportStore
  import opened ImportTasks
  import opened Outbox
  import opened ExportPlan
  import opened Sync
  import opened SyncTasks
  import W = OutboxWorkers

  // ---------- the tables stay valid ----------

  lemma UpsertIsValid(s: Store, bindings: Bindings, p: Payload, a: Answer)
    requires Valid(s)
    ensures Valid(ExportUpsert(s, bindings, p, a).store)
  {
    var link := NewestLink(s, p.taskId);
    if ExportUpsert(s, bindings, p, a).store != s {
      var b := bindings[p.bindingId];
      if link.Some? && AlreadyExported(s.links[link.value], b) {
        SetLinkIsValid(s, link.value, Patched(s.links[link.value], a));
      } else if link.Some? {
        SetLinkIsValid(s, link.value, Moved(s.links[link.value], b, a));
      } else {
        AddLinkIsValid(s, ExportedLink(p.taskId, b, a));
      }
    }
  }

  lemma ExecuteIsValid(s: Store, bindings: Bindings, row: Row, a: Answer)
    requires Valid(s)
    ensures Valid(Execute(s, bindings, row, a).store)
  {
    if row.kind == EXPORT_UPSERT { UpsertIsValid(s, bindings, row.payload, a); }
  }

  lemma OptInIsValid(s: Store, bindings: Bindings, taskId: int, bindingId: int, placeholder: string)
    requires Valid(s)
    ensures Valid(OptIn(s, bindings, taskId, bindingId, placeholder))
  {
    var t := OptIn(s, bindings, taskId, bindingId, placeholder);
    if t != s {
      var b, link := bindings[bindingId], NewestLink(s, taskId);
      if link.None? {
        AddLinkIsValid(s, OptInLink(taskId, b, bindingId, placeholder));
      } else {
        SetLinkIsValid(s, link.value, OptedIn(s.links[link.value], b, bindingId));
      }
    }
  }

  lemma StepIsValid(w: World, step: Step)
    requires Can(w, step) && W.Inv(w.outbox) && Valid(w.store)
    ensures Valid(Do(w, step).store)
  {
    match step
    case Import(b, ev, now) => ImportIsValid(w.store, b, ev, now);
    case NewTask(task) => AddTaskIsValid(w.store, task);
    case EnableExport(taskId, bindingId, placeholder) =>
      OptInIsValid(w.store, w.bindings, taskId, bindingId, placeholder);
    case RunItem(worker, answer, _, _) => ExecuteIsValid(w.store, w.bindings, RowInHand(w, worker), answer);
    case _ => SameIdsValid(w.store, Do(w, step).store);
  }

  // Over any run the rows keep their ids, foreign keys and unique constraints.
  lemma {:induction false} TablesStayValid(w: World, steps: seq<Step>)
    requires W.Inv(w.outbox) && CanRun(w, steps) && Valid(w.store)
    ensures Valid(Run(w, steps).store)
    decreases |steps|
  {
    if steps != [] {
      StepKeepsInv(w, steps[0]);
      StepIsValid(w, steps[0]);
      TablesStayValid(Do(w, steps[0]), steps[1..]);
    }
  }

  // ---------- the link that names an event ----------

  function AnchorLink(s: Store, n: Name): int
    requires Anchored(s, n)
  {
    Found(s, n).value
  }

  function AnchorTask(s: Store, n: Name): int
    requires Anchored(s, n)
  {
    s.links[AnchorLink(s, n)].taskId
  }

  predicate Names(l: Link, n: Name) { IsFor(l, n.calendarId, n.eventId) }

  lemma FoundIs(s: Store, n: Name, l: int)
    requires Valid(s) && l in s.links && Names(s.links[l], n)
    ensures Found(s, n) == Some(l)
  {
    var found := Found(s, n);
    if found.Some? { assert SameRow(s.links[found.value], s.links[l]); }
  }

  // Link l still names n and leads to the same task.
  predicate Stands(s: Store, t: Store, l: int, n: Name) {
    l in s.links && l in t.links && Names(t.links[l], n) && t.links[l].taskId == s.links[l].taskId
  }

  lemma StandingDecides(s: Store, t: Store, n: Name)
    requires Valid(t) && Anchored(s, n) && Stands(s, t, AnchorLink(s, n), n)
    ensures Anchored(t, n) <==> Live(t, AnchorTask(s, n))
  {
    FoundIs(t, n, AnchorLink(s, n));
  }

  // No link but l has changed or come.
  predicate OthersKept(s: Store, t: Store, l: int) {
    forall k :: k in t.links && k != l ==> k in s.links && t.links[k] == s.links[k]
  }

  lemma FallenDecides(s: Store, t: Store, n: Name)
    requires Valid(s) && Anchored(s, n) && OthersKept(s, t, AnchorLink(s, n))
    requires AnchorLink(s, n) in t.links ==> !Names(t.links[AnchorLink(s, n)], n)
    ensures !Anchored(t, n)
  {
    var l, found := AnchorLink(s, n), Found(t, n);
    if found.Some? && found.value != l {
      assert SameRow(s.links[found.value], s.links[l]);
    }
  }

  // ---------- the steps that untie it ----------

  // A cancelled event whose link leads to task x takes that task with it.
  predicate CancelDetaches(s: Store, b: Binding, ev: Event, x: int) {
    && ev.cancelled && b.policy == DeleteImported
    && LinkOf(s, b, ev).Some? && s.links[LinkOf(s, b, ev).value].taskId == x
  }

  // Opting in moves the newest link of its task to the binding's calendar.
  predicate OptInDetaches(s: Store, bindings: Bindings, taskId: int, bindingId: int, n: Name, l: int)
    requires l in s.links
  {
    && MayOptIn(s, bindings, taskId, bindingId) && NewestLink(s, taskId) == Some(l)
    && bindings[bindingId].calendarId != n.calendarId
    && !Conflicts(s.links, OptedIn(s.links[l], bindings[bindingId], bindingId), Some(l))
  }

  // An export that creates an event moves the newest link of its task to it.
  predicate UpsertDetaches(s: Store, bindings: Bindings, p: Payload, a: Answer, n: Name, l: int)
    requires l in s.links
  {
    && Live(s, p.taskId) && ShouldExport(s.tasks[p.taskId]) && NewestLink(s, p.taskId) == Some(l)
    && Present(bindings, p.bindingId) && AllowsExport(bindings[p.bindingId].direction)
    && !AlreadyExported(s.links[l], bindings[p.bindingId])
    && a.Stored? && Name(bindings[p.bindingId].calendarId, a.eventId) != n
    && !Conflicts(s.links, Moved(s.links[l], bindings[p.bindingId], a), Some(l))
  }

  // An export that deletes an event removes the newest link of its task.
  predicate RemoveDetaches(s: Store, bindings: Bindings, p: Payload, a: Answer, l: int)
    requires l in s.links
  {
    && p.taskId > 0 && NewestLink(s, p.taskId) == Some(l)
    && (!HasAccount(bindings, s.links[l], p) || a.Missing? || a.Stored?)
  }

  predicate RowDetaches(s: Store, bindings: Bindings, row: Row, a: Answer, n: Name, l: int)
    requires l in s.links
  {
    || (row.kind == EXPORT_UPSERT && UpsertDetaches(s, bindings, row.payload, a, n, l))
    || (row.kind == EXPORT_DELETE && RemoveDetaches(s, bindings, row.payload, a, l))
  }

  // Read off the tables before the step.
  ghost predicate Detaches(w: World, step: Step, n: Name)
    requires Can(w, step) && W.Inv(w.outbox) && Anchored(w.store, n)
  {
    var l, x := AnchorLink(w.store, n), AnchorTask(w.store, n);
    match step
    case DeleteTask(taskId) => taskId == x
    case Import(b, ev, _) => CancelDetaches(w.store, b, ev, x)
    case EnableExport(taskId, bindingId, _) => OptInDetaches(w.store, w.bindings, taskId, bindingId, n, l)
    case RunItem(worker, answer, _, _) => RowDetaches(w.store, w.bindings, RowInHand(w, worker), answer, n, l)
    case _ => false
  }

  lemma ImportStands(s: Store, b: Binding, ev: Event, now: int, l: int, n: Name)
    requires Valid(s) && l in s.links && Names(s.links[l], n) && Live(s, s.links[l].taskId)
    ensures var t := ApplyEvent(s, b, ev, now).store;
            Stands(s, t, l, n) && (Live(t, s.links[l].taskId) <==> !CancelDetaches(s, b, ev, s.links[l].taskId))
  {
    var target, f := Resolve(s, b, ev), MapEvent(ev, b, now);
    if ev.cancelled {
      if LinkOf(s, b, ev).Some? { CancelStands(s, LinkOf(s, b, ev).value, b.policy, l, n); }
    } else if target.Some? {
      if f.Some? { ThroughLinkStands(s, target.value, b, ev, f.value, l, n, now); }
    } else if f.Some? {
      CreateStands(s, b, ev, f.value, l, n, now);
    }
  }

  lemma CancelStands(s: Store, k: int, policy: DeletePolicy, l: int, n: Name)
    requires Valid(s) && k in s.links && l in s.links && Names(s.links[l], n) && Live(s, s.links[l].taskId)
    ensures var t := ApplyCancelled(s, k, policy);
            && Stands(s, t, l, n)
            && (Live(t, s.links[l].taskId) <==> !(policy == DeleteImported && s.links[k].taskId == s.links[l].taskId))
  {
  }

  lemma ThroughLinkStands(s: Store, k: int, b: Binding, ev: Event, f: Task, l: int, n: Name, now: int)
    requires Valid(s) && k in s.links && l in s.links && Names(s.links[l], n) && Live(s, s.links[l].taskId)
    ensures var t := UpdateThroughLink(s, k, b, ev, f, now);
            Stands(s, t, l, n) && Live(t, s.links[l].taskId)
  {
  }

  lemma CreateStands(s: Store, b: Binding, ev: Event, f: Task, l: int, n: Name, now: int)
    requires Valid(s) && l in s.links && Names(s.links[l], n) && Live(s, s.links[l].taskId)
    ensures var t := CreateImported(s, b, ev, f, now);
            Stands(s, t, l, n) && Live(t, s.links[l].taskId)
  {
  }

  lemma OptInDecides(s: Store, bindings: Bindings, taskId: int, bindingId: int, placeholder: string, n: Name)
    requires Valid(s) && Anchored(s, n)
    ensures Anchored(OptIn(s, bindings, taskId, bindingId, placeholder), n) <==>
            !OptInDetaches(s, bindings, taskId, bindingId, n, AnchorLink(s, n))
  {
    var t := OptIn(s, bindings, taskId, bindingId, placeholder);
    OptInIsValid(s, bindings, taskId, bindingId, placeholder);
    if OptInDetaches(s, bindings, taskId, bindingId, n, AnchorLink(s, n)) {
      FallenDecides(s, t, n);
    } else {
      StandingDecides(s, t, n);
    }
  }

  lemma UpsertDecides(s: Store, bindings: Bindings, p: Payload, a: Answer, n: Name)
    requires Valid(s) && Anchored(s, n)
    ensures Anchored(ExportUpsert(s, bindings, p, a).store, n) <==>
            !UpsertDetaches(s, bindings, p, a, n, AnchorLink(s, n))
  {
    var t := ExportUpsert(s, bindings, p, a).store;
    UpsertIsValid(s, bindings, p, a);
    if UpsertDetaches(s, bindings, p, a, n, AnchorLink(s, n)) {
      FallenDecides(s, t, n);
    } else {
      StandingDecides(s, t, n);
    }
  }

  lemma RowDecides(s: Store, bindings: Bindings, row: Row, a: Answer, n: Name)
    requires Valid(s) && Anchored(s, n)
    ensures Anchored(Execute(s, bindings, row, a).store, n) <==>
            !RowDetaches(s, bindings, row, a, n, AnchorLink(s, n))
  {
    if row.kind == EXPORT_UPSERT {
      UpsertDecides(s, bindings, row.payload, a, n);
    } else if row.kind == EXPORT_DELETE {
      RemoveDecides(s, bindings, row.payload, a, n);
    }
  }

  lemma RemoveDecides(s: Store, bindings: Bindings, p: Payload, a: Answer, n: Name)
    requires Valid(s) && Anchored(s, n)
    ensures Anchored(ExportDelete(s, bindings, p, a).store, n) <==>
            !RemoveDetaches(s, bindings, p, a, AnchorLink(s, n))
  {
    var t := ExportDelete(s, bindings, p, a).store;
    if RemoveDetaches(s, bindings, p, a, AnchorLink(s, n)) {
      FallenDecides(s, t, n);
    } else {
      assert t.links.Keys <= s.links.Keys;
      DropIsValid(s, t);
      StandingDecides(s, t, n);
    }
  }

  lemma DropIsValid(s: Store, t: Store)
    requires Valid(s) && t.tasks == s.tasks && t.nextTask == s.nextTask && t.nextLink == s.nextLink
    requires t.links.Keys <= s.links.Keys && forall k :: k in t.links ==> t.links[k] == s.links[k]
    ensures Valid(t)
  {
  }

  // Main result: of all the steps of the system exactly these untie an event from its task:
  // deleting that task, a cancellation under the delete policy, an opt-in to another calendar, an
  // export that creates an event elsewhere, and an export that removes the link.
  lemma StepDecidesAnchor(w: World, step: Step, n: Name)
    requires Can(w, step) && W.Inv(w.outbox) && Valid(w.store) && Anchored(w.store, n)
    ensures Anchored(Do(w, step).store, n) <==> !Detaches(w, step, n)
  {
    var s, t := w.store, Do(w, step).store;
    var l := AnchorLink(s, n);
    StepIsValid(w, step);
    match step
    case Import(b, ev, now) => {
      ImportStands(s, b, ev, now, l, n);
      StandingDecides(s, t, n);
    }
    case EnableExport(taskId, bindingId, placeholder) => OptInDecides(s, w.bindings, taskId, bindingId, placeholder, n);
    case RunItem(worker, answer, _, _) => RowDecides(s, w.bindings, RowInHand(w, worker), answer, n);
    case _ => StandingDecides(s, t, n);
  }

  // ---------- runs that leave the links alone ----------

  // No step unties a tracked event, and a delivery is of a tracked event or of one without a link.
  ghost predicate Undisturbed(w: World, steps: seq<Step>, names: set<Name>)
    requires W.Inv(w.outbox) && CanRun(w, steps)
    decreases |steps|
  {
    if steps == [] then true
    else
      StepKeepsInv(w, steps[0]);
      && (forall n :: n in names && Anchored(w.store, n) ==> !Detaches(w, steps[0], n))
      && (Delivers(steps[0]) ==> NameOf(steps[0]) in names || Found(w.store, NameOf(steps[0])) == None)
      && Undisturbed(Do(w, steps[0]), steps[1..], if Delivers(steps[0]) then names + {NameOf(steps[0])} else names)
  }

  lemma BornAnchored(w: World, step: Step)
    requires Can(w, step) && W.Inv(w.outbox) && Valid(w.store)
    requires Delivers(step) && Found(w.store, NameOf(step)) == None
    ensures Anchored(Do(w, step).store, NameOf(step))
  {
    var t := Do(w, step).store;
    StepIsValid(w, step);
    assert Resolve(w.store, step.b, step.ev) == None;
    assert t.links[w.store.nextLink] == NewLink(w.store.nextTask, step.b, step.ev, Imported);
    FoundIs(t, NameOf(step), w.store.nextLink);
  }

  predicate AllAnchored(s: Store, names: set<Name>) {
    forall n :: n in names ==> Anchored(s, n)
  }

  // After a step of an undisturbed run the tracked events, and the one it delivered, are anchored.
  lemma UndisturbedStep(w: World, steps: seq<Step>, names: set<Name>)
    requires W.Inv(w.outbox) && CanRun(w, steps) && Valid(w.store) && AllAnchored(w.store, names)
    requires steps != [] && Undisturbed(w, steps, names)
    ensures Can(w, steps[0]) && Valid(Do(w, steps[0]).store)
    ensures AllAnchored(Do(w, steps[0]).store, if Delivers(steps[0]) then names + {NameOf(steps[0])} else names)
    ensures Delivers(steps[0]) ==> (Anchored(w.store, NameOf(steps[0])) <==> NameOf(steps[0]) in names)
  {
    var step := steps[0];
    StepIsValid(w, step);
    forall n | n in names ensures Anchored(Do(w, step).store, n) {
      assert !Detaches(w, step, n);
      StepDecidesAnchor(w, step, n);
    }
    if Delivers(step) && NameOf(step) !in names { BornAnchored(w, step); }
  }

  lemma {:induction false} UndisturbedIsSteady(w: World, steps: seq<Step>, names: set<Name>)
    requires W.Inv(w.outbox) && CanRun(w, steps) && Valid(w.store) && AllAnchored(w.store, names)
    requires Undisturbed(w, steps, names)
    ensures Steady(w, steps, names)
    decreases |steps|
  {
    if steps != [] {
      var step := steps[0];
      StepKeepsInv(w, step);
      UndisturbedStep(w, steps, names);
      var more := if Delivers(step) then names + {NameOf(step)} else names;
      UndisturbedIsSteady(Do(w, step), steps[1..], more);
      assert Delivers(step) && NameOf(step) in names ==> more == names;
    }
  }

  function DeliveredNames(steps: seq<Step>): set<Name> {
    set i | 0 <= i < |steps| && Delivers(steps[i]) :: NameOf(steps[i])
  }

  function BirthNames(births: seq<Birth>): set<Name> {
    set i | 0 <= i < |births| :: births[i].name
  }

  lemma DeliveredCons(step: Step, steps: seq<Step>)
    ensures DeliveredNames([step] + steps) ==
            DeliveredNames(steps) + if Delivers(step) then {NameOf(step)} else {}
  {
    var all := [step] + steps;
    assert forall i :: 1 <= i < |all| ==> all[i] == steps[i - 1];
    assert all[0] == step;
    forall n | n in DeliveredNames(steps) ensures n in DeliveredNames(all) {
      var i :| 0 <= i < |steps| && Delivers(steps[i]) && NameOf(steps[i]) == n;
      assert Delivers(all[i + 1]) && NameOf(all[i + 1]) == n;
    }
  }

  lemma BirthNamesCons(b: Birth, births: seq<Birth>)
    ensures BirthNames([b] + births) == BirthNames(births) + {b.name}
  {
    var all := [b] + births;
    assert forall i :: 1 <= i < |all| ==> all[i] == births[i - 1];
    assert all[0] == b;
    forall n | n in BirthNames(births) ensures n in BirthNames(all) {
      var i :| 0 <= i < |births| && births[i].name == n;
      assert all[i + 1].name == n;
    }
  }

  lemma NextBirth(w: World, steps: seq<Step>)
    requires W.Inv(w.outbox) && CanRun(w, steps) && steps != []
    ensures Can(w, steps[0]) && W.Inv(Do(w, steps[0]).outbox) && CanRun(Do(w, steps[0]), steps[1..])
    ensures BirthNames(Births(w, steps)) ==
            BirthNames(Births(Do(w, steps[0]), steps[1..])) +
            if Delivers(steps[0]) && !Anchored(w.store, NameOf(steps[0])) then {NameOf(steps[0])} else {}
  {
    StepKeepsInv(w, steps[0]);
    if Delivers(steps[0]) {
      BearsUnanchored(w, steps[0]);
      BirthNamesCons(Birth(NameOf(steps[0]), w.store.nextTask), Births(Do(w, steps[0]), steps[1..]));
    }
  }

  lemma TakeOneMore(all: set<Name>, names: set<Name>, n: Name)
    ensures all - (names + {n}) + (if n in names then {} else {n}) == all + {n} - names
    ensures all + {} == all && all - names + {} == all - names
  {
  }

  lemma {:induction false} UndisturbedBirths(w: World, steps: seq<Step>, names: set<Name>)
    requires W.Inv(w.outbox) && CanRun(w, steps) && Valid(w.store) && AllAnchored(w.store, names)
    requires Undisturbed(w, steps, names)
    ensures BirthNames(Births(w, steps)) == DeliveredNames(steps) - names
    decreases |steps|
  {
    if steps != [] {
      var rest := steps[1..];
      NextBirth(w, steps);
      UndisturbedStep(w, steps, names);
      assert [steps[0]] + rest == steps;
      DeliveredCons(steps[0], rest);
      if Delivers(steps[0]) {
        var n := NameOf(steps[0]);
        UndisturbedBirths(Do(w, steps[0]), rest, names + {n});
        TakeOneMore(DeliveredNames(rest), names, n);
      } else {
        UndisturbedBirths(Do(w, steps[0]), rest, names);
      }
    }
  }

  // Main result: while no step unties an event, the run adds exactly one task for each event that
  // is delivered and had none, and none for the others.
  lemma UndisturbedEventsHaveOneTask(w: World, steps: seq<Step>, names: set<Name>)
    requires W.Inv(w.outbox) && CanRun(w, steps) && Valid(w.store) && AllAnchored(w.store, names)
    requires Undisturbed(w, steps, names)
    ensures AtMostOneEach(Births(w, steps), names)
    ensures BirthNames(Births(w, steps)) == DeliveredNames(steps) - names
  {
    UndisturbedIsSteady(w, steps, names);
    OneTaskPerEvent(w, steps, names);
    UndisturbedBirths(w, steps, names);
  }

  // ---------- two tasks for one event, without any deletion ----------

  lemma BirthsOfTwo(w: World, first: Step, second: Step)
    requires W.Inv(w.outbox) && CanRun(w, [first, second])
    ensures Can(w, first) && W.Inv(Do(w, first).outbox) && Can(Do(w, first), second)
    ensures Run(w, [first, second]) == Do(Do(w, first), second)
    ensures Births(w, [first, second]) ==
            (if Bears(w, first) then [Birth(NameOf(first), w.store.nextTask)] else []) +
            (if Bears(Do(w, first), second) then [Birth(NameOf(second), Do(w, first).store.nextTask)] else [])
  {
    StepKeepsInv(w, first);
    var u := Do(w, first);
    StepKeepsInv(u, second);
    assert [first, second][1..] == [second] && [second][1..] == [];
    assert Births(Do(u, second), []) == [] && Run(Do(u, second), []) == Do(u, second);
  }

  lemma CanRunTwo(w: World, first: Step, second: Step)
    requires W.Inv(w.outbox) && Can(w, first) && (StepKeepsInv(w, first); Can(Do(w, first), second))
    ensures CanRun(w, [first, second])
  {
    StepKeepsInv(w, first);
    StepKeepsInv(Do(w, first), second);
    assert [first, second][1..] == [second] && [second][1..] == [];
  }

  // A step that unties an event, and then a delivery of it: a second task is born while the first
  // is alive.
  lemma UntiedThenDelivered(w: World, step: Step, delivery: Step, n: Name)
    requires Can(w, step) && W.Inv(w.outbox) && Valid(w.store) && Anchored(w.store, n)
    requires Detaches(w, step, n) && (step.EnableExport? || step.RunItem?)
    requires Delivers(delivery) && NameOf(delivery) == n
    ensures CanRun(w, [step, delivery])
    ensures Births(w, [step, delivery]) == [Birth(n, w.store.nextTask)]
    ensures var t := Run(w, [step, delivery]).store;
            AnchorTask(w.store, n) != w.store.nextTask && Live(t, AnchorTask(w.store, n)) && Live(t, w.store.nextTask)
  {
    StepKeepsInv(w, step);
    var u := Do(w, step);
    CanRunTwo(w, step, delivery);
    BirthsOfTwo(w, step, delivery);
    StepDecidesAnchor(w, step, n);
    BearsUnanchored(u, delivery);
    KeepsTaskRows(w, step);
    UnanchoredCreates(u.store, delivery);
  }

  lemma KeepsTaskRows(w: World, step: Step)
    requires Can(w, step) && W.Inv(w.outbox) && (step.EnableExport? || step.RunItem?)
    ensures Do(w, step).store.tasks == w.store.tasks && Do(w, step).store.nextTask == w.store.nextTask
  {
    if step.RunItem? { ExecuteKeepsTasks(w.store, w.bindings, RowInHand(w, step.worker), step.answer); }
  }

  lemma UnanchoredCreates(s: Store, delivery: Step)
    requires Delivers(delivery) && !Anchored(s, NameOf(delivery))
    ensures var t := ApplyEvent(s, delivery.b, delivery.ev, delivery.now).store;
            Live(t, s.nextTask) && forall x :: x != s.nextTask && Live(s, x) ==> Live(t, x)
  {
    var target := Resolve(s, delivery.b, delivery.ev);
    assert target == Found(s, NameOf(delivery));
  }

  // First input: a task imported from one calendar is opted in to export to another, and the event
  // is delivered again.
  lemma OptInDuplicates(w: World, b: Binding, ev: Event, now: int, bindingId: int, placeholder: string)
    requires var n := Name(b.calendarId, ev.id);
             && W.Inv(w.outbox) && Valid(w.store) && Anchored(w.store, n) && Delivers(Import(b, ev, now))
             && OptInDetaches(w.store, w.bindings, AnchorTask(w.store, n), bindingId, n, AnchorLink(w.store, n))
    ensures var n, x := Name(b.calendarId, ev.id), AnchorTask(w.store, Name(b.calendarId, ev.id));
            var steps := [EnableExport(x, bindingId, placeholder), Import(b, ev, now)];
            && CanRun(w, steps) && Births(w, steps) == [Birth(n, w.store.nextTask)] && x != w.store.nextTask
            && Live(Run(w, steps).store, x) && Live(Run(w, steps).store, w.store.nextTask)
  {
    var n := Name(b.calendarId, ev.id);
    UntiedThenDelivered(w, EnableExport(AnchorTask(w.store, n), bindingId, placeholder), Import(b, ev, now), n);
  }

  // Any change of a task asks for an upsert to every exporting binding that has it in scope, also
  // when it was imported from another calendar.
  lemma ImportedTaskIsAsked(s: Store, bindings: Bindings, taskId: int, action: string, id: int)
    requires Live(s, taskId) && ShouldExport(s.tasks[taskId]) && action != DELETED
    requires Keyed(bindings) && ByOwner(s.tasks[taskId], bindings, id)
    ensures UpsertFor(taskId, action, id) in ExportRows(s, bindings, taskId, action)
  {
    var ups := Upserts(s.tasks[taskId], bindings, LinkRow(s, taskId), action);
    assert id in ups;
    assert UpsertFor(taskId, action, id) in UpsertRows(taskId, action, ups);
  }

  // Second input: such an upsert creates an event in the other calendar and moves the link to it,
  // and the first event is delivered again.
  lemma ExportDuplicates(
      w: World, b: Binding, ev: Event, now: int, worker: int, answer: Answer, marked: bool, message: string)
    requires var n := Name(b.calendarId, ev.id);
             && W.Inv(w.outbox) && Valid(w.store) && Anchored(w.store, n) && Delivers(Import(b, ev, now))
             && W.Can(w.outbox, W.Finish(worker, None)) && RowInHand(w, worker).kind == EXPORT_UPSERT
             && UpsertDetaches(w.store, w.bindings, RowInHand(w, worker).payload, answer, n, AnchorLink(w.store, n))
    ensures var n, x := Name(b.calendarId, ev.id), AnchorTask(w.store, Name(b.calendarId, ev.id));
            var steps := [RunItem(worker, answer, marked, message), Import(b, ev, now)];
            && CanRun(w, steps) && Births(w, steps) == [Birth(n, w.store.nextTask)] && x != w.store.nextTask
            && Live(Run(w, steps).store, x) && Live(Run(w, steps).store, w.store.nextTask)
  {
    var n := Name(b.calendarId, ev.id);
    UntiedThenDelivered(w, RunItem(worker, answer, marked, message), Import(b, ev, now), n);
  }

  // ---------- the two inputs, in full ----------

  const HOME := "home"
  const WORK := "work"
  const MEETING_ID := "m1"

  const MEETING_TASK := Task(MEETING_ID, "", 1, None, None, None, 10, None, None, None, Scheduled, false, false)
  const MEETING_LINK := Link(1, HOME, MEETING_ID, "", 0, Imported, true, false, Some(1), None, false)
  const TABLES := Store(map[1 := MEETING_TASK], 2, map[1 := MEETING_LINK], 2, [])

  const HOME_BINDING := Binding(1, HOME, 1, None, None, ImportOnly, Keep, 1, false)
  const WORK_BINDING := Binding(2, WORK, 1, None, None, ExportOnly, Keep, 1, false)
  const BINDINGS: Bindings := map[1 := HOME_BINDING, 2 := WORK_BINDING]

  const MEETING := Event(MEETING_ID, false, None, MEETING_ID, "", Some(10), None, None, None, "", 0, None)

  lemma MeetingIsAnchored()
    ensures Valid(TABLES) && Anchored(TABLES, Name(HOME, MEETING_ID))
    ensures AnchorLink(TABLES, Name(HOME, MEETING_ID)) == 1 && AnchorTask(TABLES, Name(HOME, MEETING_ID)) == 1
    ensures NewestLink(TABLES, 1) == Some(1) && Keyed(BINDINGS) && ByOwner(MEETING_TASK, BINDINGS, 2)
  {
    FoundIs(TABLES, Name(HOME, MEETING_ID), 1);
  }

  // One task imported from the home calendar, and a binding that exports to the work calendar.
  lemma OptInExample(o: W.State, placeholder: string)
    requires W.Inv(o)
    ensures var w := World(TABLES, BINDINGS, o, []);
            var steps := [EnableExport(1, 2, placeholder), Import(HOME_BINDING, MEETING, 0)];
            && CanRun(w, steps) && Births(w, steps) == [Birth(Name(HOME, MEETING_ID), 2)]
            && Live(Run(w, steps).store, 1) && Live(Run(w, steps).store, 2)
  {
    MeetingIsAnchored();
    assert HOME[0] != WORK[0];
    OptInDuplicates(World(TABLES, BINDINGS, o, []), HOME_BINDING, MEETING, 0, 2, placeholder);
  }

  // The same without an opt-in: a worker holds the row any change of that reminder asks for.
  lemma ExportExample(o: W.State, worker: int, action: string, eventId: string, marked: bool, message: string)
    requires W.Inv(o) && W.Can(o, W.Finish(worker, None)) && action != DELETED
    requires var row := RowInHand(World(TABLES, BINDINGS, o, []), worker);
             Asked(row.kind, row.payload) == UpsertFor(1, action, 2)
    ensures UpsertFor(1, action, 2) in ExportRows(TABLES, BINDINGS, 1, action)
    ensures var w, answer := World(TABLES, BINDINGS, o, []), Stored(eventId, "", 0, None);
            var steps := [RunItem(worker, answer, marked, message), Import(HOME_BINDING, MEETING, 0)];
            && CanRun(w, steps) && Births(w, steps) == [Birth(Name(HOME, MEETING_ID), 2)]
            && Live(Run(w, steps).store, 1) && Live(Run(w, steps).store, 2)
  {
    MeetingIsAnchored();
    ImportedTaskIsAsked(TABLES, BINDINGS, 1, action, 2);
    assert HOME[0] != WORK[0];
    var w, answer := World(TABLES, BINDINGS, o, []), Stored(eventId, "", 0, None);
    ExportDuplicates(w, HOME_BINDING, MEETING, 0, worker, answer, marked, message);
  }
}
