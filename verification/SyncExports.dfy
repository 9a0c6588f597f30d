/** What the outcome of an export means: when a try succeeds, what it leaves in the links, and over
    any run that exactly the rows with a successful try become done. */
module SyncExports {
  import opened Text
  import opened CalendarBindings
  import opened ImportStore
  import opened Outbox
  import opened ExportPlan
  import opened Sync
  import A = SyncAnchors
  import W = OutboxWorkers

  // ---------- links ----------

  // Link row id is the last one that was added for the task.
  predicate IsNewest(s: Store, taskId: int, id: int) {
    && id in s.links && s.links[id].taskId == taskId
    && forall j :: j in s.links && s.links[j].taskId == taskId ==> j <= id
  }

  predicate HasNoLink(s: Store, taskId: int) { forall j :: j in s.links ==> s.links[j].taskId != taskId }

  lemma NewestDecides(s: Store, taskId: int)
    requires Valid(s)
    ensures match NewestLink(s, taskId)
            case None => HasNoLink(s, taskId)
            case Some(id) => IsNewest(s, taskId, id)
  {
  }

  lemma OneNewest(s: Store, taskId: int, id: int)
    requires Valid(s) && IsNewest(s, taskId, id)
    ensures NewestLink(s, taskId) == Some(id)
  {
  }

  // Another link already has the event, in this calendar or for this task.
  predicate Occupied(s: Store, taskId: int, calendarId: string, eventId: string, but: Option<int>) {
    exists j :: j in s.links && Some(j) != but && s.links[j].eventId == eventId
                && (s.links[j].calendarId == calendarId || s.links[j].taskId == taskId)
  }

  // The link already leads to an event in the calendar, not to a placeholder.
  predicate LeadsInto(l: Link, calendarId: string) {
    l.eventId != "" && !("pending-" <= l.eventId) && l.calendarId == calendarId
  }

  // ---------- one upsert ----------

  predicate AliveTask(s: Store, taskId: int) { taskId in s.tasks && !s.tasks[taskId].deleted }

  predicate Usable(bindings: Bindings, id: int) { id in bindings && !bindings[id].deleted }

  // The calendar stored the event, and the link that is to name it can be written.
  ghost predicate Lands(s: Store, taskId: int, calendarId: string, a: Answer) {
    a.Stored? && if HasNoLink(s, taskId) then !Occupied(s, taskId, calendarId, a.eventId, None)
                 else exists id :: IsNewest(s, taskId, id)
                                   && (LeadsInto(s.links[id], calendarId)
                                       || !Occupied(s, taskId, calendarId, a.eventId, Some(id)))
  }

  // The row asks for an event: its task is alive and has no parent, and its binding exports.
  predicate WantsEvent(s: Store, bindings: Bindings, p: Payload) {
    && AliveTask(s, p.taskId) && s.tasks[p.taskId].parentId.None?
    && Usable(bindings, p.bindingId) && bindings[p.bindingId].direction != ImportOnly
  }

  // There is nothing to export: a child, or a binding that only imports.
  predicate NothingToExport(s: Store, bindings: Bindings, p: Payload) {
    && AliveTask(s, p.taskId)
    && (s.tasks[p.taskId].parentId.Some?
        || (Usable(bindings, p.bindingId) && bindings[p.bindingId].direction == ImportOnly))
  }

  ghost predicate UpsertSucceeds(s: Store, bindings: Bindings, p: Payload, a: Answer) {
    || NothingToExport(s, bindings, p)
    || (WantsEvent(s, bindings, p) && Lands(s, p.taskId, bindings[p.bindingId].calendarId, a))
  }

  // A new event, and the link that names it.
  predicate Created(l: Link, b: Binding, a: Answer) {
    && a.Stored? && l.calendarId == b.calendarId && l.eventId == a.eventId && l.etag == a.etag
    && l.googleUpdated == a.updated && l.duration == a.duration && l.origin == Origin.Exported
    && l.syncEnabled && l.bindingId == Some(b.id) && !l.failed
  }

  // The event the link led to is kept and was patched.
  predicate Refreshed(was: Link, l: Link, a: Answer) {
    && a.Stored? && l.calendarId == was.calendarId && l.eventId == was.eventId && l.etag == a.etag
    && l.googleUpdated == a.updated && (a.duration.Some? ==> l.duration == a.duration)
    && (a.duration.None? ==> l.duration == was.duration) && l.origin == was.origin
    && l.syncEnabled == was.syncEnabled && l.bindingId == was.bindingId && !l.failed
  }

  ghost predicate OtherRowsKept(s: Store, t: Store, id: int) {
    && t.tasks == s.tasks && t.jobs == s.jobs
    && (forall j :: j != id ==> (j in t.links <==> j in s.links) && (j in s.links ==> t.links[j] == s.links[j]))
  }

  // What an upsert for a task and a binding that exports leaves: its newest link records the event.
  ghost predicate Exported(s: Store, t: Store, taskId: int, b: Binding, a: Answer) {
    exists id :: IsNewest(t, taskId, id) && OtherRowsKept(s, t, id)
                 && (if id !in s.links then HasNoLink(s, taskId) && Created(t.links[id], b, a)
                     else && IsNewest(s, taskId, id) && t.links[id].exportOptIn == s.links[id].exportOptIn
                          && if LeadsInto(s.links[id], b.calendarId) then Refreshed(s.links[id], t.links[id], a)
                             else Created(t.links[id], b, a))
  }

  // The one call an upsert that wants an event makes, once it has a client.
  ghost predicate UpsertCalls(s: Store, taskId: int, calendarId: string, a: Answer, calls: seq<Call>) {
    if a.NoClient? then calls == []
    else if exists id :: IsNewest(s, taskId, id) && LeadsInto(s.links[id], calendarId) then
      exists id :: IsNewest(s, taskId, id) && calls == [PatchCall(taskId, s.links[id].eventId)]
    else calls == [CreateCall(taskId)]
  }

  lemma ConflictIsOccupied(s: Store, l: Link, but: Option<int>)
    ensures Conflicts(s.links, l, but) <==> Occupied(s, l.taskId, l.calendarId, l.eventId, but)
  {
  }

  lemma NewLinkOutcome(s: Store, b: Binding, taskId: int, a: Answer)
    requires Valid(s) && a.Stored? && HasNoLink(s, taskId)
    ensures var r := CreateEvent(s, b, taskId, None, a);
            && (r.ok <==> Lands(s, taskId, b.calendarId, a)) && r.calls == [CreateCall(taskId)]
            && (if r.ok then Exported(s, r.store, taskId, b, a) else r.store == s)
  {
    var r := CreateEvent(s, b, taskId, None, a);
    ConflictIsOccupied(s, ExportedLink(taskId, b, a), None);
    if r.ok { assert IsNewest(r.store, taskId, s.nextLink); }
  }

  lemma MovedLinkOutcome(s: Store, b: Binding, taskId: int, id: int, a: Answer)
    requires Valid(s) && a.Stored? && IsNewest(s, taskId, id) && !LeadsInto(s.links[id], b.calendarId)
    ensures var r := CreateEvent(s, b, taskId, Some(id), a);
            && (r.ok <==> Lands(s, taskId, b.calendarId, a)) && r.calls == [CreateCall(taskId)]
            && (if r.ok then Exported(s, r.store, taskId, b, a) else r.store == s)
  {
    var r := CreateEvent(s, b, taskId, Some(id), a);
    ConflictIsOccupied(s, Moved(s.links[id], b, a), Some(id));
    if r.ok { assert IsNewest(r.store, taskId, id); }
  }

  lemma PatchOutcome(s: Store, b: Binding, taskId: int, id: int, a: Answer)
    requires Valid(s) && IsNewest(s, taskId, id) && LeadsInto(s.links[id], b.calendarId) && a.Stored?
    ensures Lands(s, taskId, b.calendarId, a)
    ensures Exported(s, s.(links := s.links[id := Patched(s.links[id], a)]), taskId, b, a)
  {
    assert IsNewest(s.(links := s.links[id := Patched(s.links[id], a)]), taskId, id);
  }

  // An upsert succeeds exactly when there is nothing to export, or the calendar stored the event
  // and the link could be written, which then records it; otherwise it is reported as failed and
  // nothing is written.
  lemma UpsertOutcome(s: Store, bindings: Bindings, p: Payload, a: Answer)
    requires Valid(s)
    ensures var r := ExportUpsert(s, bindings, p, a);
            && (r.ok <==> UpsertSucceeds(s, bindings, p, a))
            && (r.ok && WantsEvent(s, bindings, p) ==> Exported(s, r.store, p.taskId, bindings[p.bindingId], a))
            && (!r.ok || !WantsEvent(s, bindings, p) ==> r.store == s)
            && (if WantsEvent(s, bindings, p)
                then UpsertCalls(s, p.taskId, bindings[p.bindingId].calendarId, a, r.calls) else r.calls == [])
  {
    if WantsEvent(s, bindings, p) {
      var b := bindings[p.bindingId];
      NewestDecides(s, p.taskId);
      var link := NewestLink(s, p.taskId);
      if link.Some? && LeadsInto(s.links[link.value], b.calendarId) {
        if a.Stored? { PatchOutcome(s, b, p.taskId, link.value, a); }
      } else if a.Stored? {
        if link.None? { NewLinkOutcome(s, b, p.taskId, a); } else { MovedLinkOutcome(s, b, p.taskId, link.value, a); }
      }
    }
  }

  // ---------- one delete ----------

  predicate AccountOf(bindings: Bindings, id: int) { Usable(bindings, id) && bindings[id].accountId != 0 }

  // The binding of the link has an account, or the binding of the row has.
  predicate Reachable(bindings: Bindings, l: Link, p: Payload) {
    || (l.bindingId.Some? && AccountOf(bindings, l.bindingId.value))
    || (p.bindingId >= 1 && AccountOf(bindings, p.bindingId))
  }

  // The link row that a delete is about.
  predicate AboutLink(s: Store, p: Payload, id: int) { p.taskId >= 1 && IsNewest(s, p.taskId, id) }

  // There is no link, no account to delete through, or the calendar has deleted the event or no
  // longer has it.
  ghost predicate RemoveSucceeds(s: Store, bindings: Bindings, p: Payload, a: Answer) {
    forall id :: AboutLink(s, p, id) ==> !Reachable(bindings, s.links[id], p) || a.Stored? || a.Missing?
  }

  ghost predicate Removed(s: Store, t: Store, p: Payload) {
    && t == s.(links := t.links) && t.links.Keys <= s.links.Keys
    && forall j :: j in s.links ==> if AboutLink(s, p, j) then j !in t.links
                                    else j in t.links && t.links[j] == s.links[j]
  }

  ghost predicate RemoveCalls(s: Store, bindings: Bindings, p: Payload, a: Answer, calls: seq<Call>) {
    if !a.NoClient? && exists id :: AboutLink(s, p, id) && Reachable(bindings, s.links[id], p)
    then exists id :: AboutLink(s, p, id) && calls == [DeleteCall(p.taskId, s.links[id].eventId)]
    else calls == []
  }

  // A delete succeeds exactly then, and only then is the newest link of the task removed.
  lemma RemoveOutcome(s: Store, bindings: Bindings, p: Payload, a: Answer)
    requires Valid(s)
    ensures var r := ExportDelete(s, bindings, p, a);
            && (r.ok <==> RemoveSucceeds(s, bindings, p, a)) && RemoveCalls(s, bindings, p, a, r.calls)
            && (if r.ok then Removed(s, r.store, p) else r.store == s)
  {
    NewestDecides(s, p.taskId);
    var link, r := if p.taskId > 0 then NewestLink(s, p.taskId) else None, ExportDelete(s, bindings, p, a);
    if link.Some? {
      assert AboutLink(s, p, link.value);
      assert forall id :: AboutLink(s, p, id) ==> id == link.value;
    } else {
      assert forall id :: !AboutLink(s, p, id);
    }
  }

  // ---------- opting in ----------

  // The link an opt-in writes: the newest one moved to the binding, or a new one that names no
  // event yet.
  predicate OptInFits(s: Store, taskId: int, b: Binding, placeholder: string) {
    match NewestLink(s, taskId)
    case None => !Occupied(s, taskId, b.calendarId, placeholder, None)
    case Some(id) => id in s.links && !Occupied(s, taskId, b.calendarId, s.links[id].eventId, Some(id))
  }

  // A live task without parent, and a binding of its owner that exports.
  predicate OptInAccepted(s: Store, bindings: Bindings, taskId: int, bindingId: int, placeholder: string) {
    && AliveTask(s, taskId) && s.tasks[taskId].parentId.None? && Usable(bindings, bindingId)
    && bindings[bindingId].userId == s.tasks[taskId].userId && bindings[bindingId].direction != ImportOnly
    && OptInFits(s, taskId, bindings[bindingId], placeholder)
  }

  predicate PointsAt(l: Link, b: Binding, bindingId: int) {
    l.syncEnabled && l.exportOptIn && l.bindingId == Some(bindingId) && l.calendarId == b.calendarId
  }

  ghost predicate OptInWritten(s: Store, t: Store, taskId: int, b: Binding, bindingId: int, placeholder: string) {
    exists id :: IsNewest(t, taskId, id) && OtherRowsKept(s, t, id) && PointsAt(t.links[id], b, bindingId)
                 && if id in s.links
                    then && IsNewest(s, taskId, id) && t.links[id].eventId == s.links[id].eventId
                         && t.links[id].origin == s.links[id].origin && t.links[id].etag == s.links[id].etag
                    else HasNoLink(s, taskId) && t.links[id].eventId == placeholder
                         && t.links[id].origin == Origin.Exported
  }

  lemma NewOptIn(s: Store, b: Binding, taskId: int, bindingId: int, placeholder: string)
    requires Valid(s) && HasNoLink(s, taskId)
    ensures var l := OptInLink(taskId, b, bindingId, placeholder);
            && (Conflicts(s.links, l, None) <==> Occupied(s, taskId, b.calendarId, placeholder, None))
            && OptInWritten(s, AddLink(s, l), taskId, b, bindingId, placeholder)
  {
    var l := OptInLink(taskId, b, bindingId, placeholder);
    ConflictIsOccupied(s, l, None);
    assert IsNewest(AddLink(s, l), taskId, s.nextLink);
  }

  lemma MovedOptIn(s: Store, b: Binding, taskId: int, bindingId: int, placeholder: string, id: int)
    requires Valid(s) && IsNewest(s, taskId, id)
    ensures var l := OptedIn(s.links[id], b, bindingId);
            && (Conflicts(s.links, l, Some(id)) <==>
                  Occupied(s, taskId, b.calendarId, s.links[id].eventId, Some(id)))
            && OptInWritten(s, s.(links := s.links[id := l]), taskId, b, bindingId, placeholder)
  {
    var l := OptedIn(s.links[id], b, bindingId);
    ConflictIsOccupied(s, l, Some(id));
    assert IsNewest(s.(links := s.links[id := l]), taskId, id);
  }

  // An opt-in that is accepted points the newest link of the task at the binding and its calendar,
  // keeping the event it names; any other writes nothing.
  lemma OptInOutcome(s: Store, bindings: Bindings, taskId: int, bindingId: int, placeholder: string)
    requires Valid(s)
    ensures var t := OptIn(s, bindings, taskId, bindingId, placeholder);
            if OptInAccepted(s, bindings, taskId, bindingId, placeholder)
            then OptInWritten(s, t, taskId, bindings[bindingId], bindingId, placeholder) else t == s
  {
    NewestDecides(s, taskId);
    if bindingId in bindings {
      match NewestLink(s, taskId)
      case None => NewOptIn(s, bindings[bindingId], taskId, bindingId, placeholder);
      case Some(id) => MovedOptIn(s, bindings[bindingId], taskId, bindingId, placeholder, id);
    }
  }

  // After it every change of the task asks the binding for an upsert, whatever the groups.
  lemma OptedInIsExported(
      s: Store, bindings: Bindings, taskId: int, bindingId: int, placeholder: string, action: string)
    requires Valid(s) && Keyed(bindings) && action != DELETED
    requires OptInAccepted(s, bindings, taskId, bindingId, placeholder)
    ensures var t := OptIn(s, bindings, taskId, bindingId, placeholder);
            UpsertFor(taskId, action, bindingId) in ExportRows(t, bindings, taskId, action)
  {
    var t := OptIn(s, bindings, taskId, bindingId, placeholder);
    OptInOutcome(s, bindings, taskId, bindingId, placeholder);
    A.OptInIsValid(s, bindings, taskId, bindingId, placeholder);
    var id :| IsNewest(t, taskId, id) && PointsAt(t.links[id], bindings[bindingId], bindingId);
    OneNewest(t, taskId, id);
    LiveRowsExactly(t, bindings, taskId, action, bindingId);
  }

  // The newest link names an event, in whatever calendar.
  ghost predicate NamesEvent(s: Store, taskId: int) {
    exists id :: IsNewest(s, taskId, id) && LeadsInto(s.links[id], s.links[id].calendarId)
  }

  // That upsert creates an event if and only if no link named one before the opt-in. Otherwise it
  // patches the event the link named, in the calendar of the binding, although the event may be in
  // another one; it then fails until the calendar stores a patch of an event it does not have.
  lemma ExportAfterOptIn(
      s: Store, bindings: Bindings, taskId: int, bindingId: int, placeholder: string, action: string, a: Answer)
    requires Valid(s) && OptInAccepted(s, bindings, taskId, bindingId, placeholder) && "pending-" <= placeholder
    requires !a.NoClient?
    ensures var t := OptIn(s, bindings, taskId, bindingId, placeholder);
            var r := ExportUpsert(t, bindings, Payload(taskId, bindingId, 0, action), a);
            && (r.calls == [CreateCall(taskId)] <==> !NamesEvent(s, taskId))
            && (NamesEvent(s, taskId) ==>
                  && (r.ok <==> a.Stored?)
                  && forall id :: IsNewest(s, taskId, id) ==> r.calls == [PatchCall(taskId, s.links[id].eventId)])
  {
    var b, t := bindings[bindingId], OptIn(s, bindings, taskId, bindingId, placeholder);
    OptInOutcome(s, bindings, taskId, bindingId, placeholder);
    A.OptInIsValid(s, bindings, taskId, bindingId, placeholder);
    NewestDecides(s, taskId);
    var id :| IsNewest(t, taskId, id) && PointsAt(t.links[id], b, bindingId) && OtherRowsKept(s, t, id)
              && (id in s.links ==> IsNewest(s, taskId, id) && t.links[id].eventId == s.links[id].eventId)
              && (id !in s.links ==> HasNoLink(s, taskId) && t.links[id].eventId == placeholder);
    OneNewest(t, taskId, id);
    if id in s.links { OneNewest(s, taskId, id); }
  }

  // ---------- every run ----------

  ghost predicate RowSucceeds(s: Store, bindings: Bindings, row: Row, a: Answer) {
    if row.kind == EXPORT_UPSERT then UpsertSucceeds(s, bindings, row.payload, a)
    else row.kind == EXPORT_DELETE && RemoveSucceeds(s, bindings, row.payload, a)
  }

  // What a successful execution has done: an upsert that wants an event has put it into the
  // calendar and its task's newest link records it; a delete has removed the link, after the event
  // when there is an account.
  ghost predicate CarriedOut(s: Store, bindings: Bindings, row: Row, a: Answer, t: Store, calls: seq<Call>) {
    var p := row.payload;
    if row.kind == EXPORT_DELETE then Removed(s, t, p) && RemoveCalls(s, bindings, p, a, calls)
    else if WantsEvent(s, bindings, p) then
      && Exported(s, t, p.taskId, bindings[p.bindingId], a)
      && UpsertCalls(s, p.taskId, bindings[p.bindingId].calendarId, a, calls)
    else t == s && calls == []
  }

  lemma ExecuteCarriesOut(s: Store, bindings: Bindings, row: Row, a: Answer)
    requires Valid(s)
    ensures var r := Execute(s, bindings, row, a);
            && (r.ok <==> RowSucceeds(s, bindings, row, a))
            && if r.ok then CarriedOut(s, bindings, row, a, r.store, r.calls) else r.store == s
  {
    UpsertOutcome(s, bindings, row.payload, a);
    RemoveOutcome(s, bindings, row.payload, a);
  }

  predicate IsDone(o: W.State, rowId: int) { rowId in o.rows && o.rows[rowId].status == Done }

  // A worker executes the row, that succeeds, and the mark is written.
  ghost predicate Completes(w: World, step: Step, rowId: int) {
    && Tries(w, step, rowId) && rowId in w.outbox.rows
    && RowSucceeds(w.store, w.bindings, w.outbox.rows[rowId], step.answer)
  }

  ghost predicate CompletesIn(w: World, steps: seq<Step>, rowId: int)
    requires W.Inv(w.outbox) && CanRun(w, steps)
    decreases |steps|
  {
    steps != [] && (Completes(w, steps[0], rowId) || (StepKeepsInv(w, steps[0]);
                                                      CompletesIn(Do(w, steps[0]), steps[1..], rowId)))
  }

  // The row a try is about, before and after it.
  ghost predicate TryLeaves(w: World, step: Step, t: World, rowId: int)
    requires step.RunItem?
  {
    && rowId in w.outbox.rows && rowId in t.outbox.rows && w.calls <= t.calls
    && w.outbox.rows[rowId].status == Processing
    && var row, next := w.outbox.rows[rowId], t.outbox.rows[rowId];
       if RowSucceeds(w.store, w.bindings, row, step.answer)
       then && next == row.(status := Done)
            && CarriedOut(w.store, w.bindings, row, step.answer, t.store, t.calls[|w.calls|..])
       else PutBack(row, next, row.attempts, step.message, w.outbox.clock) && t.store == w.store
  }

  // A marked try makes the row done and has carried it out, or puts it back with one more failure
  // and has written nothing.
  lemma TryOutcome(w: World, step: Step, rowId: int)
    requires Can(w, step) && W.Inv(w.outbox) && Valid(w.store) && Tries(w, step, rowId)
    ensures TryLeaves(w, step, Do(w, step), rowId)
  {
    var row, item := RowInHand(w, step.worker), w.outbox.workers[step.worker].items[0];
    assert W.WorkerOk(w.outbox, w.outbox.workers[step.worker]) && W.HeldOk(w.outbox, item);
    ExecuteCarriesOut(w.store, w.bindings, row, step.answer);
    FailureWaits(w.outbox.rows, rowId, item.attempts, step.message, w.outbox.clock);
    var r := Execute(w.store, w.bindings, row, step.answer);
    assert (w.calls + r.calls)[|w.calls|..] == r.calls;
  }

  lemma UntriedStays(w: World, step: Step, rowId: int)
    requires step.RunItem? && Can(w, step) && W.Inv(w.outbox) && !Tries(w, step, rowId)
    ensures IsDone(Do(w, step).outbox, rowId) <==> IsDone(w.outbox, rowId)
  {
    var item := w.outbox.workers[step.worker].items[0];
    assert W.WorkerOk(w.outbox, w.outbox.workers[step.worker]) && W.HeldOk(w.outbox, item);
  }

  lemma StepDone(w: World, step: Step, rowId: int)
    requires Can(w, step) && W.Inv(w.outbox) && Valid(w.store)
    ensures IsDone(Do(w, step).outbox, rowId) <==> IsDone(w.outbox, rowId) || Completes(w, step, rowId)
  {
    match step
    case OutboxStep(inner) => W.StepFollows(w.outbox, inner); OutboxStepDone(w.outbox, inner, rowId);
    case RunItem(_, _, _, _) =>
      if Tries(w, step, rowId) { TryOutcome(w, step, rowId); } else { UntriedStays(w, step, rowId); }
    case _ =>
  }

  lemma OutboxStepDone(o: W.State, step: W.Step, rowId: int)
    requires W.Inv(o) && W.Can(o, step) && !step.Finish? && !step.LoseMark?
    ensures IsDone(W.Do(o, step), rowId) ==> IsDone(o, rowId)
  {
    if rowId in o.rows { OutboxStepKeepsFailures(o, step, rowId); }
  }

  // Main result: over any run of the system a row is done at the end if and only if it was at the
  // start or some worker's try of it succeeded and was marked; a refusal of the calendar, a missing
  // client, or a link that cannot be written never makes it done.
  lemma {:induction false} DoneExactly(w: World, steps: seq<Step>, rowId: int)
    requires W.Inv(w.outbox) && CanRun(w, steps) && Valid(w.store)
    ensures IsDone(Run(w, steps).outbox, rowId) <==> IsDone(w.outbox, rowId) || CompletesIn(w, steps, rowId)
    decreases |steps|
  {
    if steps != [] {
      StepDone(w, steps[0], rowId);
      StepKeepsInv(w, steps[0]);
      A.StepIsValid(w, steps[0]);
      DoneExactly(Do(w, steps[0]), steps[1..], rowId);
    }
  }

  // Some try in the run was carried out and made the row done.
  ghost predicate CarriedOutIn(w: World, steps: seq<Step>, rowId: int)
    requires W.Inv(w.outbox) && CanRun(w, steps)
    decreases |steps|
  {
    steps != [] && (|| (Completes(w, steps[0], rowId) && TryLeaves(w, steps[0], Do(w, steps[0]), rowId))
                    || (StepKeepsInv(w, steps[0]); CarriedOutIn(Do(w, steps[0]), steps[1..], rowId)))
  }

  // So a row that has become done was carried out: its event is in the calendar and in its task's
  // newest link, or gone from both.
  lemma {:induction false} DoneMeansCarriedOut(w: World, steps: seq<Step>, rowId: int)
    requires W.Inv(w.outbox) && CanRun(w, steps) && Valid(w.store)
    requires !IsDone(w.outbox, rowId) && IsDone(Run(w, steps).outbox, rowId)
    ensures CarriedOutIn(w, steps, rowId)
    decreases |steps|
  {
    StepDone(w, steps[0], rowId);
    if Completes(w, steps[0], rowId) {
      TryOutcome(w, steps[0], rowId);
    } else {
      StepKeepsInv(w, steps[0]);
      A.StepIsValid(w, steps[0]);
      DoneMeansCarriedOut(Do(w, steps[0]), steps[1..], rowId);
    }
  }
}
