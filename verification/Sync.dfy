/** The two-way sync as one system: imports, edits and deletions of tasks, opt-ins, and outbox
    workers that execute exports against the calendar, in any order. */
module Sync {
  import opened Text
  import opened CalendarBindings
  import opened ImportStore
  import opened Outbox
  import opened ExportPlan
  import W = OutboxWorkers

  // ---------- executing an export ----------

  // Calls that reach the calendar.
  datatype Call =
    | CreateCall(taskId: int)
    | PatchCall(taskId: int, eventId: string)
    | DeleteCall(taskId: int, eventId: string)

  // What the calendar answers: no connection, a refusal, a missing event, or the event as stored.
  datatype Answer =
    | NoClient
    | Refused
    | Missing
    | Stored(eventId: string, etag: string, updated: int, duration: Option<int>)

  datatype Executed = Executed(ok: bool, store: Store, calls: seq<Call>)

  const PENDING := "pending-"

  // The link already names an event in the binding's calendar.
  predicate AlreadyExported(l: Link, b: Binding) {
    l.eventId != "" && !HasPrefix(l.eventId, PENDING) && l.calendarId == b.calendarId
  }

  function Patched(l: Link, a: Answer): Link
    requires a.Stored?
  {
    l.(etag := a.etag, googleUpdated := a.updated, failed := false,
       duration := if a.duration.Some? then a.duration else l.duration)
  }

  function Moved(l: Link, b: Binding, a: Answer): Link
    requires a.Stored?
  {
    l.(eventId := a.eventId, calendarId := b.calendarId, etag := a.etag, googleUpdated := a.updated,
       origin := Origin.Exported,
       syncEnabled := true, bindingId := Some(b.id), duration := a.duration, failed := false)
  }

  function ExportedLink(taskId: int, b: Binding, a: Answer): Link
    requires a.Stored?
  {
    Link(taskId, b.calendarId, a.eventId, a.etag, a.updated, Origin.Exported,
         true, false, Some(b.id), a.duration, false)
  }

  // The event is in the calendar, whether or not the link can be written.
  function CreateEvent(s: Store, b: Binding, taskId: int, link: Option<int>, a: Answer): Executed
    requires a.Stored?
  {
    var calls := [CreateCall(taskId)];
    match link
    case Some(id) =>
      if id !in s.links || Conflicts(s.links, Moved(s.links[id], b, a), link) then Executed(false, s, calls)
      else Executed(true, s.(links := s.links[id := Moved(s.links[id], b, a)]), calls)
    case None =>
      if Conflicts(s.links, ExportedLink(taskId, b, a), None) then Executed(false, s, calls)
      else Executed(true, AddLink(s, ExportedLink(taskId, b, a)), calls)
  }

  // exportUpsert
  function ExportUpsert(s: Store, bindings: Bindings, p: Payload, a: Answer): Executed {
    if !Live(s, p.taskId) then Executed(false, s, [])
    else if !ShouldExport(s.tasks[p.taskId]) then Executed(true, s, [])
    else if !Present(bindings, p.bindingId) then Executed(false, s, [])
    else
      var b := bindings[p.bindingId];
      if !AllowsExport(b.direction) then Executed(true, s, [])
      else if a.NoClient? then Executed(false, s, [])
      else
        var link := NewestLink(s, p.taskId);
        if link.Some? && link.value in s.links && AlreadyExported(s.links[link.value], b) then
          var l := s.links[link.value];
          var calls := [PatchCall(p.taskId, l.eventId)];
          if !a.Stored? then Executed(false, s, calls)
          else Executed(true, s.(links := s.links[link.value := Patched(l, a)]), calls)
        else if !a.Stored? then Executed(false, s, [CreateCall(p.taskId)])
        else CreateEvent(s, b, p.taskId, link, a)
  }

  // The account a delete goes through: the link's binding, then the row's.
  predicate HasAccount(bindings: Bindings, l: Link, p: Payload) {
    || (l.bindingId.Some? && Present(bindings, l.bindingId.value) && bindings[l.bindingId.value].accountId != 0)
    || (p.bindingId > 0 && Present(bindings, p.bindingId) && bindings[p.bindingId].accountId != 0)
  }

  // exportDelete
  function ExportDelete(s: Store, bindings: Bindings, p: Payload, a: Answer): Executed {
    var link := if p.taskId > 0 then NewestLink(s, p.taskId) else None;
    if link.None? || link.value !in s.links then Executed(true, s, [])
    else
      var l := s.links[link.value];
      var unlinked := s.(links := s.links - {link.value});
      if !HasAccount(bindings, l, p) then Executed(true, unlinked, [])
      else if a.NoClient? then Executed(false, s, [])
      else if a.Refused? then Executed(false, s, [DeleteCall(p.taskId, l.eventId)])
      else Executed(true, unlinked, [DeleteCall(p.taskId, l.eventId)])
  }

  // processOutboxItem
  function Execute(s: Store, bindings: Bindings, row: Row, a: Answer): Executed {
    if row.kind == EXPORT_UPSERT then ExportUpsert(s, bindings, row.payload, a)
    else if row.kind == EXPORT_DELETE then ExportDelete(s, bindings, row.payload, a)
    else Executed(false, s, [])
  }

  function OptInLink(taskId: int, b: Binding, bindingId: int, placeholder: string): Link {
    Link(taskId, b.calendarId, placeholder, "", 0, Origin.Exported, true, true, Some(bindingId), None, false)
  }

  function OptedIn(l: Link, b: Binding, bindingId: int): Link {
    l.(syncEnabled := true, exportOptIn := true, bindingId := Some(bindingId), calendarId := b.calendarId)
  }

  predicate MayOptIn(s: Store, bindings: Bindings, taskId: int, bindingId: int) {
    && Live(s, taskId) && ShouldExport(s.tasks[taskId]) && Present(bindings, bindingId)
    && bindings[bindingId].userId == s.tasks[taskId].userId && AllowsExport(bindings[bindingId].direction)
  }

  // EnableTaskExport, without the row it enqueues
  function OptIn(s: Store, bindings: Bindings, taskId: int, bindingId: int, placeholder: string): Store {
    if !MayOptIn(s, bindings, taskId, bindingId) then s
    else
      var b := bindings[bindingId];
      match NewestLink(s, taskId)
      case None =>
        var l := OptInLink(taskId, b, bindingId, placeholder);
        if Conflicts(s.links, l, None) then s else AddLink(s, l)
      case Some(id) =>
        if id !in s.links || Conflicts(s.links, OptedIn(s.links[id], b, bindingId), Some(id)) then s
        else s.(links := s.links[id := OptedIn(s.links[id], b, bindingId)])
  }

  // ---------- the system ----------

  datatype World = World(store: Store, bindings: Bindings, outbox: W.State, calls: seq<Call>)

  datatype Step =
    | Import(b: Binding, ev: Event, now: int)
    | NewTask(task: Task)
    | EditTask(taskId: int, task: Task)
    | DeleteTask(taskId: int)
    | SetBinding(id: int, b: Binding)
    | EnableExport(taskId: int, bindingId: int, placeholder: string)
    | OutboxStep(step: W.Step)
    | RunItem(worker: int, answer: Answer, marked: bool, message: string)

  // Updates by the tasks repository go to live rows and never clear deleted_at.
  predicate Can(w: World, step: Step) {
    match step
    case Import(_, _, _) => true
    case NewTask(task) => !task.deleted
    case EditTask(taskId, task) => Live(w.store, taskId) && !task.deleted
    case DeleteTask(_) => true
    case SetBinding(_, _) => true
    case EnableExport(_, _, _) => true
    case OutboxStep(step) => !step.Finish? && !step.LoseMark? && W.Can(w.outbox, step)
    case RunItem(worker, _, _, _) => W.Can(w.outbox, W.Finish(worker, None))
  }

  function RowInHand(w: World, worker: int): Row
    requires W.Can(w.outbox, W.Finish(worker, None)) && W.Inv(w.outbox)
  {
    assert W.WorkerOk(w.outbox, w.outbox.workers[worker]);
    assert W.HeldOk(w.outbox, w.outbox.workers[worker].items[0]);
    w.outbox.rows[w.outbox.workers[worker].items[0].id]
  }

  function Ending(ok: bool, worker: int, marked: bool, message: string): W.Step {
    var error := if ok then None else Some(message);
    if marked then W.Finish(worker, error) else W.LoseMark(worker, error)
  }

  function Do(w: World, step: Step): World
    requires Can(w, step) && W.Inv(w.outbox)
  {
    match step
    case Import(b, ev, now) => w.(store := ApplyEvent(w.store, b, ev, now).store)
    case NewTask(task) => w.(store := AddTask(w.store, task))
    case EditTask(taskId, task) => w.(store := w.store.(tasks := w.store.tasks[taskId := task]))
    case DeleteTask(taskId) =>
      if Live(w.store, taskId) then
        var gone := w.store.tasks[taskId].(deleted := true, status := Deleted);
        w.(store := w.store.(tasks := w.store.tasks[taskId := gone]))
      else w
    case SetBinding(id, b) => w.(bindings := w.bindings[id := b])
    case EnableExport(taskId, bindingId, placeholder) =>
      w.(store := OptIn(w.store, w.bindings, taskId, bindingId, placeholder))
    case OutboxStep(step) => w.(outbox := W.Do(w.outbox, step))
    case RunItem(worker, answer, marked, message) =>
      var r := Execute(w.store, w.bindings, RowInHand(w, worker), answer);
      w.(store := r.store, calls := w.calls + r.calls, outbox := W.Do(w.outbox, Ending(r.ok, worker, marked, message)))
  }

  lemma StepKeepsInv(w: World, step: Step)
    requires Can(w, step) && W.Inv(w.outbox)
    ensures W.Inv(Do(w, step).outbox)
  {
    match step
    case OutboxStep(inner) => W.StepKeepsInv(w.outbox, inner);
    case RunItem(worker, answer, marked, message) =>
      var r := Execute(w.store, w.bindings, RowInHand(w, worker), answer);
      W.StepKeepsInv(w.outbox, Ending(r.ok, worker, marked, message));
    case _ =>
  }

  ghost predicate CanRun(w: World, steps: seq<Step>)
    requires W.Inv(w.outbox)
    decreases |steps|
  {
    steps == [] || (Can(w, steps[0]) && (StepKeepsInv(w, steps[0]); CanRun(Do(w, steps[0]), steps[1..])))
  }

  ghost function Run(w: World, steps: seq<Step>): (t: World)
    requires W.Inv(w.outbox) && CanRun(w, steps)
    ensures W.Inv(t.outbox)
    decreases |steps|
  {
    if steps == [] then w
    else
      StepKeepsInv(w, steps[0]);
      Run(Do(w, steps[0]), steps[1..])
  }

  // ---------- no resurrection ----------

  predicate Gone(s: Store, taskId: int) { taskId in s.tasks && s.tasks[taskId].deleted && taskId < s.nextTask }

  // The call would put something into a calendar for task taskId.
  predicate Pushes(c: Call, taskId: int) { (c.CreateCall? || c.PatchCall?) && c.taskId == taskId }

  predicate NonePushed(calls: seq<Call>, taskId: int) {
    forall i :: 0 <= i < |calls| ==> !Pushes(calls[i], taskId)
  }

  lemma ExportsOfGoneTask(s: Store, bindings: Bindings, row: Row, a: Answer, taskId: int)
    requires Gone(s, taskId)
    ensures var r := Execute(s, bindings, row, a);
            && r.store.tasks == s.tasks && r.store.nextTask == s.nextTask && NonePushed(r.calls, taskId)
            && (row.kind == EXPORT_UPSERT && row.payload.taskId == taskId ==> !r.ok)
  {
  }

  lemma CancelKeepsGone(s: Store, linkId: int, policy: DeletePolicy, taskId: int)
    requires linkId in s.links && Gone(s, taskId)
    ensures Gone(ApplyCancelled(s, linkId, policy), taskId)
  {
  }

  lemma ThroughLinkKeepsGone(s: Store, linkId: int, b: Binding, ev: Event, f: Task, taskId: int, now: int)
    requires linkId in s.links && Gone(s, taskId)
    ensures Gone(UpdateThroughLink(s, linkId, b, ev, f, now), taskId)
  {
  }

  lemma CreateKeepsGone(s: Store, b: Binding, ev: Event, f: Task, taskId: int, now: int)
    requires Gone(s, taskId)
    ensures Gone(CreateImported(s, b, ev, f, now), taskId)
  {
  }

  lemma ImportKeepsGone(s: Store, b: Binding, ev: Event, now: int, taskId: int)
    requires Gone(s, taskId)
    ensures Gone(ApplyEvent(s, b, ev, now).store, taskId)
  {
    var target, f := Resolve(s, b, ev), MapEvent(ev, b, now);
    if ev.cancelled {
      if LinkOf(s, b, ev).Some? { CancelKeepsGone(s, LinkOf(s, b, ev).value, b.policy, taskId); }
    } else if f.Some? {
      if target.Some? { ThroughLinkKeepsGone(s, target.value, b, ev, f.value, taskId, now); }
      CreateKeepsGone(s, b, ev, f.value, taskId, now);
    }
  }

  lemma StepKeepsGone(w: World, step: Step, taskId: int)
    requires Can(w, step) && W.Inv(w.outbox) && Gone(w.store, taskId)
    ensures Gone(Do(w, step).store, taskId)
    ensures w.calls <= Do(w, step).calls && NonePushed(Do(w, step).calls[|w.calls|..], taskId)
  {
    match step
    case Import(b, ev, now) => ImportKeepsGone(w.store, b, ev, now, taskId);
    case RunItem(worker, answer, _, _) => ExportsOfGoneTask(w.store, w.bindings, RowInHand(w, worker), answer, taskId);
    case _ =>
  }

  lemma NonePushedConcat(a: seq<Call>, b: seq<Call>, c: seq<Call>, taskId: int)
    requires a <= b <= c && NonePushed(b[|a|..], taskId) && NonePushed(c[|b|..], taskId)
    ensures a <= c && NonePushed(c[|a|..], taskId)
  {
    assert c[|a|..] == b[|a|..] + c[|b|..];
  }

  // Main result: after a task is soft-deleted it stays deleted, and no outbox row, in any order
  // and however often it is tried, creates or patches a calendar event for it.
  lemma {:induction false} NoResurrection(w: World, steps: seq<Step>, taskId: int)
    requires W.Inv(w.outbox) && CanRun(w, steps) && Gone(w.store, taskId)
    ensures var t := Run(w, steps);
            Gone(t.store, taskId) && w.calls <= t.calls && NonePushed(t.calls[|w.calls|..], taskId)
    decreases |steps|
  {
    if steps != [] {
      StepKeepsGone(w, steps[0], taskId);
      StepKeepsInv(w, steps[0]);
      var u := Do(w, steps[0]);
      NoResurrection(u, steps[1..], taskId);
      NonePushedConcat(w.calls, u.calls, Run(u, steps[1..]).calls, taskId);
    }
  }

  // ---------- what becomes of the rows a deleted task leaves behind ----------

  predicate Leftover(o: W.State, rowId: int, taskId: int) {
    rowId in o.rows && o.rows[rowId].kind == EXPORT_UPSERT && o.rows[rowId].payload.taskId == taskId
    && o.rows[rowId].status != Status.Done
  }

  // A worker tries the row and the result is written.
  predicate Tries(w: World, step: Step, rowId: int) {
    && step.RunItem? && step.marked && W.Can(w.outbox, W.Finish(step.worker, None))
    && w.outbox.workers[step.worker].items[0].id == rowId
  }

  ghost function TriesIn(w: World, steps: seq<Step>, rowId: int): int
    requires W.Inv(w.outbox) && CanRun(w, steps)
    decreases |steps|
  {
    if steps == [] then 0
    else
      StepKeepsInv(w, steps[0]);
      (if Tries(w, steps[0], rowId) then 1 else 0) + TriesIn(Do(w, steps[0]), steps[1..], rowId)
  }

  // Failed executions a row's columns account for.
  function Failures(row: Row): int { row.attempts + if row.status == Failed then 1 else 0 }

  lemma LeftoverStep(w: World, step: Step, rowId: int, taskId: int)
    requires Can(w, step) && W.Inv(w.outbox) && Gone(w.store, taskId) && Leftover(w.outbox, rowId, taskId)
    ensures Leftover(Do(w, step).outbox, rowId, taskId)
    ensures Failures(Do(w, step).outbox.rows[rowId]) ==
            Failures(w.outbox.rows[rowId]) + if Tries(w, step, rowId) then 1 else 0
  {
    match step
    case OutboxStep(inner) => OutboxStepKeepsFailures(w.outbox, inner, rowId);
    case RunItem(worker, answer, marked, message) => LeftoverRun(w, worker, answer, marked, message, rowId, taskId);
    case _ =>
  }

  lemma OutboxStepKeepsFailures(o: W.State, step: W.Step, rowId: int)
    requires W.Inv(o) && W.Can(o, step) && !step.Finish? && !step.LoseMark? && rowId in o.rows
    ensures var q := W.Do(o, step).rows;
            && rowId in q && q[rowId].kind == o.rows[rowId].kind && q[rowId].payload == o.rows[rowId].payload
            && Failures(q[rowId]) == Failures(o.rows[rowId])
            && (q[rowId].status == Done ==> o.rows[rowId].status == Done)
  {
    if step.Commit? {
      assert W.WorkerOk(o, o.workers[step.w]);
      if rowId in o.workers[step.w].ids { assert Due(o.rows, rowId, o.clock); }
    }
  }

  lemma LeftoverRun(w: World, worker: int, answer: Answer, marked: bool, message: string, rowId: int, taskId: int)
    requires W.Can(w.outbox, W.Finish(worker, None)) && W.Inv(w.outbox)
    requires Gone(w.store, taskId) && Leftover(w.outbox, rowId, taskId)
    ensures var step := RunItem(worker, answer, marked, message);
            && Leftover(Do(w, step).outbox, rowId, taskId)
            && Failures(Do(w, step).outbox.rows[rowId]) ==
               Failures(w.outbox.rows[rowId]) + if Tries(w, step, rowId) then 1 else 0
  {
    var row := RowInHand(w, worker);
    var item := w.outbox.workers[worker].items[0];
    ExportsOfGoneTask(w.store, w.bindings, row, answer, taskId);
    assert W.WorkerOk(w.outbox, w.outbox.workers[worker]) && W.HeldOk(w.outbox, item);
    assert W.RowOk(w.outbox.rows[item.id], w.outbox.history[item.id], w.outbox.clock);
  }

  // Main result: every try of an upsert row left behind by a deleted task fails, so after at
  // most 8 tries in all the row is failed, and it is never done.
  lemma {:induction false} LeftoverRowsFail(w: World, steps: seq<Step>, rowId: int, taskId: int)
    requires W.Inv(w.outbox) && CanRun(w, steps) && Gone(w.store, taskId) && Leftover(w.outbox, rowId, taskId)
    ensures var row := Run(w, steps).outbox.rows;
            && rowId in row && row[rowId].status != Status.Done
            && Failures(row[rowId]) == Failures(w.outbox.rows[rowId]) + TriesIn(w, steps, rowId) <= MAX_ATTEMPTS
            && (Failures(row[rowId]) == MAX_ATTEMPTS <==> row[rowId].status == Failed)
    decreases |steps|
  {
    if steps == [] {
      assert W.RowOk(w.outbox.rows[rowId], w.outbox.history[rowId], w.outbox.clock);
    } else {
      LeftoverStep(w, steps[0], rowId, taskId);
      StepKeepsGone(w, steps[0], taskId);
      StepKeepsInv(w, steps[0]);
      LeftoverRowsFail(Do(w, steps[0]), steps[1..], rowId, taskId);
    }
  }

  // ---------- exported origin is absorbing ----------

  // Link ids are not reused, and an exported link stays exported until it is removed.
  predicate OriginsKept(s: Store, t: Store) {
    && s.nextLink <= t.nextLink
    && forall id :: id < s.nextLink && id in t.links ==>
         id in s.links && (s.links[id].origin == Origin.Exported ==> t.links[id].origin == Origin.Exported)
  }

  lemma StepKeepsOrigins(w: World, step: Step)
    requires Can(w, step) && W.Inv(w.outbox)
    ensures OriginsKept(w.store, Do(w, step).store)
  {
    match step
    case Import(b, ev, now) => ImportKeepsOrigins(w.store, b, ev, now);
    case RunItem(worker, answer, _, _) => ExecuteKeepsOrigins(w.store, w.bindings, RowInHand(w, worker), answer);
    case _ =>
  }

  lemma ThroughLinkKeepsOrigins(s: Store, linkId: int, b: Binding, ev: Event, f: Task, now: int)
    requires linkId in s.links
    ensures OriginsKept(s, UpdateThroughLink(s, linkId, b, ev, f, now))
  {
  }

  lemma CreateKeepsOrigins(s: Store, b: Binding, ev: Event, f: Task, now: int)
    ensures OriginsKept(s, CreateImported(s, b, ev, f, now))
  {
  }

  lemma CancelKeepsOrigins(s: Store, linkId: int, policy: DeletePolicy)
    requires linkId in s.links
    ensures OriginsKept(s, ApplyCancelled(s, linkId, policy))
  {
  }

  lemma ImportKeepsOrigins(s: Store, b: Binding, ev: Event, now: int)
    ensures OriginsKept(s, ApplyEvent(s, b, ev, now).store)
  {
    var target, f := Resolve(s, b, ev), MapEvent(ev, b, now);
    if ev.cancelled {
      if LinkOf(s, b, ev).Some? { CancelKeepsOrigins(s, LinkOf(s, b, ev).value, b.policy); }
    } else if f.Some? {
      if target.Some? { ThroughLinkKeepsOrigins(s, target.value, b, ev, f.value, now); }
      CreateKeepsOrigins(s, b, ev, f.value, now);
    }
  }

  lemma ExecuteKeepsOrigins(s: Store, bindings: Bindings, row: Row, a: Answer)
    ensures OriginsKept(s, Execute(s, bindings, row, a).store)
  {
  }

  // Main result: over any run of imports, exports, edits and opt-ins a link of exported origin
  // never becomes imported.
  lemma {:induction false} ExportedStaysExported(w: World, steps: seq<Step>)
    requires W.Inv(w.outbox) && CanRun(w, steps)
    ensures OriginsKept(w.store, Run(w, steps).store)
    decreases |steps|
  {
    if steps != [] {
      StepKeepsOrigins(w, steps[0]);
      StepKeepsInv(w, steps[0]);
      ExportedStaysExported(Do(w, steps[0]), steps[1..]);
    }
  }
}
