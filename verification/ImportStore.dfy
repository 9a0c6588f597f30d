/** Tasks and their calendar links, and upsertImportedEvent: what one event from the calendar does
    to the two tables. */
module ImportStore {
  import opened Text
  import opened CalendarBindings

  // ---------- rows ----------

  datatype TaskStatus = Scheduled | Rescheduled | Postponed | Finished | Deleted | Other(name: string)

  // Instants are numbers; deleted is the deleted_at column.
  datatype Task = Task(
    title: string, description: string, userId: int, groupId: Option<int>, chat: Option<int>, parentId: Option<int>,
    start: int, finish: Option<int>, cron: Option<string>, rrule: Option<string>,
    status: TaskStatus, muted: bool, deleted: bool)

  datatype Origin = Imported | Exported

  // last_synced_at is left out: it is the one column a replay may change.
  datatype Link = Link(
    taskId: int, calendarId: string, eventId: string, etag: string, googleUpdated: int, origin: Origin,
    syncEnabled: bool, exportOptIn: bool, bindingId: Option<int>, duration: Option<int>, failed: bool)

  // Jobs for the reminder worker, published after a change.
  datatype Job = ScheduleJob(taskId: int) | DeleteJob(taskId: int)

  datatype Store = Store(tasks: map<int, Task>, nextTask: int, links: map<int, Link>, nextLink: int, jobs: seq<Job>)

  datatype DeletePolicy = DeleteImported | MuteImported | Keep

  datatype Binding = Binding(
    id: int, calendarId: string, userId: int, groupId: Option<int>, chat: Option<int>,
    direction: Direction, policy: DeletePolicy, accountId: int, deleted: bool)

  // start is None when neither form of start time can be read; next is the first occurrence of
  // the series after the time of the import; ownTask is the goreminder_task_id property.
  datatype Event = Event(
    id: string, cancelled: bool, ownTask: Option<int>, summary: string, description: string,
    start: Option<int>, end: Option<int>, rrule: Option<string>, next: Option<int>,
    etag: string, updated: int, duration: Option<int>)

  // Ids are handed out in order, links point at task rows, and no two links share a calendar and
  // event or a task and event.
  ghost predicate Valid(s: Store) {
    && (forall id :: id in s.tasks ==> 1 <= id < s.nextTask)
    && (forall id :: id in s.links ==> 1 <= id < s.nextLink && s.links[id].taskId in s.tasks)
    && s.nextTask >= 1 && s.nextLink >= 1
    && (forall i, j :: i in s.links && j in s.links && SameRow(s.links[i], s.links[j]) ==> i == j)
  }

  predicate SameEvent(l: Link, k: Link) { l.calendarId == k.calendarId && l.eventId == k.eventId }

  // The two unique constraints of the links table.
  predicate SameRow(l: Link, k: Link) {
    l.eventId == k.eventId && (l.calendarId == k.calendarId || l.taskId == k.taskId)
  }

  // A link other than row `but` leaves no room for l.
  predicate Conflicts(links: map<int, Link>, l: Link, but: Option<int>) {
    exists id :: id in links && Some(id) != but && SameRow(links[id], l)
  }

  // ---------- look-ups ----------

  predicate IsFor(l: Link, calendarId: string, eventId: string) { l.calendarId == calendarId && l.eventId == eventId }

  // GetByEvent, searching the ids up to n
  function EventLink(links: map<int, Link>, n: int, calendarId: string, eventId: string): (r: Option<int>)
    ensures r.Some? ==> 1 <= r.value <= n && r.value in links && IsFor(links[r.value], calendarId, eventId)
    ensures r.None? ==> forall id :: 1 <= id <= n && id in links ==> !IsFor(links[id], calendarId, eventId)
    decreases n
  {
    if n <= 0 then None
    else if n in links && IsFor(links[n], calendarId, eventId) then Some(n)
    else EventLink(links, n - 1, calendarId, eventId)
  }

  // GetByTaskID: the newest link of a task
  function TaskLink(links: map<int, Link>, n: int, taskId: int): (r: Option<int>)
    ensures r.Some? ==> 1 <= r.value <= n && r.value in links && links[r.value].taskId == taskId
    ensures r.Some? ==> forall id :: r.value < id <= n && id in links ==> links[id].taskId != taskId
    ensures r.None? ==> forall id :: 1 <= id <= n && id in links ==> links[id].taskId != taskId
    decreases n
  {
    if n <= 0 then None
    else if n in links && links[n].taskId == taskId then Some(n)
    else TaskLink(links, n - 1, taskId)
  }

  function LinkOf(s: Store, b: Binding, ev: Event): Option<int> {
    EventLink(s.links, s.nextLink - 1, b.calendarId, ev.id)
  }

  // GetTaskByIDWithoutStatusFilter finds rows that are not soft-deleted.
  predicate Live(s: Store, taskId: int) { taskId in s.tasks && !s.tasks[taskId].deleted }

  // ---------- mapping ----------

  const UNTITLED := "(untitled event)"

  function MappedTitle(ev: Event): string {
    if TrimSpace(ev.summary) == "" then UNTITLED else TrimSpace(ev.summary)
  }

  // The start of the event, or of its next occurrence when a series has begun.
  function MappedStart(ev: Event, now: int): int
    requires ev.start.Some?
  {
    if ev.rrule.Some? && ev.start.value <= now && ev.next.Some? then ev.next.value else ev.start.value
  }

  // MapEventToTaskFields
  function MapEvent(ev: Event, b: Binding, now: int): Option<Task> {
    if ev.start.None? then None
    else
      var start := MappedStart(ev, now);
      var finish := if ev.end.Some? && ev.end.value <= now then ev.end.value else start;
      var t := Task(MappedTitle(ev), ev.description, b.userId, b.groupId, b.chat, None,
                    start, None, None, ev.rrule, Scheduled, false, false);
      Some(if start > now then t else t.(status := Finished, finish := Some(finish)))
  }

  // keepExportedReminderOpen
  predicate KeepsOpen(origin: Origin, status: TaskStatus) { origin == Exported && status == Finished }

  // applyImportedDeliveryChat
  function DeliveryChat(current: Option<int>, bound: Option<int>): Option<int> {
    if current.Some? then current else bound
  }

  // A task as it stands in memory after the event's fields are copied onto it.
  function WithFields(t: Task, f: Task, origin: Origin): Task {
    var u := t.(title := f.title, description := f.description, groupId := f.groupId,
                chat := DeliveryChat(t.chat, f.chat));
    if KeepsOpen(origin, f.status) then u
    else u.(start := f.start, rrule := f.rrule, status := f.status,
            finish := if f.status == Finished then f.finish else if f.status == Scheduled then None else t.finish)
  }

  // UpdateTask does not write messenger_related_user_id.
  function Written(stored: Task, t: Task): Task { t.(chat := stored.chat) }

  // calendarImportedFieldsChanged, on the columns an import can change
  predicate Changed(t: Task, u: Task) {
    || t.title != u.title || t.description != u.description || t.start != u.start || t.rrule != u.rrule
    || t.status != u.status || t.finish != u.finish || t.groupId != u.groupId || t.chat != u.chat || t.muted != u.muted
  }

  predicate IsScheduled(status: TaskStatus) { status == Scheduled || status == Rescheduled || status == Postponed }

  predicate ScheduleChanged(t: Task, f: Task) {
    t.start != f.start || t.rrule != f.rrule || t.title != f.title || t.description != f.description
  }

  // ---------- writes ----------

  function NewLink(taskId: int, b: Binding, ev: Event, origin: Origin): Link {
    Link(taskId, b.calendarId, ev.id, ev.etag, ev.updated, origin, true, false, Some(b.id), ev.duration, false)
  }

  // The link update at the end of an import; task_id is not among its columns.
  function Relinked(l: Link, b: Binding, ev: Event): Link {
    l.(etag := ev.etag, googleUpdated := ev.updated, duration := ev.duration, failed := false, bindingId := Some(b.id))
  }

  function AddTask(s: Store, t: Task): Store { s.(tasks := s.tasks[s.nextTask := t], nextTask := s.nextTask + 1) }

  function AddLink(s: Store, l: Link): Store { s.(links := s.links[s.nextLink := l], nextLink := s.nextLink + 1) }

  // PublishImportedTaskSchedule on task t as it is in memory: skipped without a delivery chat, for a
  // muted task, and when the start has come. The scheduler reads the clock after the import did, so
  // a start at the time of the import has come.
  function PublishSchedule(s: Store, taskId: int, t: Task, now: int): Store {
    if t.chat.None? || t.muted || t.start <= now then s else s.(jobs := s.jobs + [ScheduleJob(taskId)])
  }

  // PublishImportedTaskDelete, skipped without a delivery chat
  function PublishDelete(s: Store, taskId: int, t: Task): Store {
    if t.chat.None? then s else s.(jobs := s.jobs + [DeleteJob(taskId)])
  }

  datatype Outcome = Outcome(store: Store, ok: bool)

  // The live task behind an existing link follows the event.
  function FollowEvent(s: Store, taskId: int, origin: Origin, f: Task, now: int): Store
    requires taskId in s.tasks
  {
    var t := s.tasks[taskId];
    var u := WithFields(t, f, origin);
    var s1 := if Changed(t, u) then s.(tasks := s.tasks[taskId := Written(t, u)]) else s;
    if KeepsOpen(origin, f.status) then s1
    else if f.status == Scheduled && (ScheduleChanged(t, f) || !IsScheduled(t.status)) then
      PublishSchedule(s1, taskId, u, now)
    else if IsScheduled(t.status) && f.status != Scheduled then PublishDelete(s1, taskId, u)
    else s1
  }

  function UpdateThroughLink(s: Store, linkId: int, b: Binding, ev: Event, f: Task, now: int): Store
    requires linkId in s.links
  {
    var l := s.links[linkId];
    var s1 :=
      if Live(s, l.taskId) then FollowEvent(s, l.taskId, l.origin, f, now)
      else PublishSchedule(AddTask(s, f), s.nextTask, f, now);
    s1.(links := s1.links[linkId := Relinked(l, b, ev)])
  }

  function CreateImported(s: Store, b: Binding, ev: Event, f: Task, now: int): Store {
    PublishSchedule(AddLink(AddTask(s, f), NewLink(s.nextTask, b, ev, Imported)), s.nextTask, f, now)
  }

  // applyImportedDeletePolicy
  function ApplyDelete(s: Store, taskId: int, policy: DeletePolicy): Store
    requires taskId in s.tasks
  {
    var t := s.tasks[taskId];
    match policy
    case DeleteImported =>
      PublishDelete(s, taskId, t).(tasks := s.tasks[taskId := t.(deleted := true, status := Deleted)])
    case MuteImported =>
      if t.muted then s else PublishDelete(s, taskId, t).(tasks := s.tasks[taskId := t.(muted := true)])
    case Keep => s
  }

  function ApplyCancelled(s: Store, linkId: int, policy: DeletePolicy): Store
    requires linkId in s.links
  {
    var taskId := s.links[linkId].taskId;
    if Live(s, taskId) then ApplyDelete(s, taskId, policy) else s.(links := s.links - {linkId})
  }

  // An event this app exported is found by its property when no link names the event.
  function OwnTask(ev: Event): Option<int> {
    if ev.ownTask.Some? && ev.ownTask.value > 0 then ev.ownTask else None
  }

  // The link an event acts on.
  function Resolve(s: Store, b: Binding, ev: Event): (r: Option<int>)
    ensures r.Some? ==> r.value in s.links
  {
    var linked := LinkOf(s, b, ev);
    if linked.Some? || OwnTask(ev).None? then linked
    else TaskLink(s.links, s.nextLink - 1, OwnTask(ev).value)
  }

  // upsertImportedEvent
  function ApplyEvent(s: Store, b: Binding, ev: Event, now: int): Outcome {
    var linked := LinkOf(s, b, ev);
    if ev.cancelled then
      Outcome(if linked.None? then s else ApplyCancelled(s, linked.value, b.policy), true)
    else
      var target := Resolve(s, b, ev);
      if target.None? && OwnTask(ev).Some? then
        // The link's foreign key needs a task row.
        if OwnTask(ev).value in s.tasks then Outcome(AddLink(s, NewLink(OwnTask(ev).value, b, ev, Exported)), true)
        else Outcome(s, false)
      else
        match MapEvent(ev, b, now)
        case None => Outcome(s, false)
        case Some(f) =>
          var t :=
            if target.None? then CreateImported(s, b, ev, f, now)
            else UpdateThroughLink(s, target.value, b, ev, f, now);
          Outcome(t, true)
  }

  function ApplyEvents(s: Store, b: Binding, evs: seq<Event>, now: int): Outcome
    decreases |evs|
  {
    if evs == [] then Outcome(s, true)
    else
      var first := ApplyEvent(s, b, evs[0], now);
      if first.ok then ApplyEvents(first.store, b, evs[1..], now) else first
  }

  // ---------- the unique constraints never refuse an import ----------

  lemma NewEventFits(s: Store, b: Binding, ev: Event)
    requires Valid(s) && LinkOf(s, b, ev).None?
    ensures !Conflicts(s.links, NewLink(s.nextTask, b, ev, Imported), None)
  {
  }

  lemma OwnEventFits(s: Store, b: Binding, ev: Event)
    requires Valid(s) && LinkOf(s, b, ev).None? && OwnTask(ev).Some?
    requires TaskLink(s.links, s.nextLink - 1, OwnTask(ev).value).None?
    ensures !Conflicts(s.links, NewLink(OwnTask(ev).value, b, ev, Exported), None)
  {
  }

  lemma RelinkFits(s: Store, id: int, b: Binding, ev: Event)
    requires Valid(s) && id in s.links
    ensures !Conflicts(s.links, Relinked(s.links[id], b, ev), Some(id))
  {
  }

  // ---------- an import keeps the tables valid ----------

  lemma AddLinkIsValid(s: Store, l: Link)
    requires Valid(s) && l.taskId in s.tasks && !Conflicts(s.links, l, None)
    ensures Valid(AddLink(s, l))
  {
  }

  lemma SetLinkIsValid(s: Store, id: int, l: Link)
    requires Valid(s) && id in s.links && l.taskId in s.tasks && !Conflicts(s.links, l, Some(id))
    ensures Valid(s.(links := s.links[id := l]))
  {
  }

  predicate SameIds(s: Store, t: Store) {
    t.tasks.Keys == s.tasks.Keys && t.links == s.links && t.nextTask == s.nextTask && t.nextLink == s.nextLink
  }

  lemma SameIdsValid(s: Store, t: Store)
    requires Valid(s) && SameIds(s, t)
    ensures Valid(t)
  {
  }

  lemma AddTaskIsValid(s: Store, f: Task)
    requires Valid(s)
    ensures Valid(AddTask(s, f))
  {
  }

  lemma CancelIsValid(s: Store, linkId: int, policy: DeletePolicy)
    requires Valid(s) && linkId in s.links
    ensures Valid(ApplyCancelled(s, linkId, policy))
  {
    if Live(s, s.links[linkId].taskId) { SameIdsValid(s, ApplyCancelled(s, linkId, policy)); }
  }

  lemma CreateIsValid(s: Store, b: Binding, ev: Event, f: Task, now: int)
    requires Valid(s) && LinkOf(s, b, ev).None?
    ensures Valid(CreateImported(s, b, ev, f, now))
  {
    NewEventFits(s, b, ev);
    AddLinkIsValid(AddTask(s, f), NewLink(s.nextTask, b, ev, Imported));
    SameIdsValid(AddLink(AddTask(s, f), NewLink(s.nextTask, b, ev, Imported)), CreateImported(s, b, ev, f, now));
  }

  lemma ThroughLinkIsValid(s: Store, linkId: int, b: Binding, ev: Event, f: Task, now: int)
    requires Valid(s) && linkId in s.links
    ensures Valid(UpdateThroughLink(s, linkId, b, ev, f, now))
  {
    var l := s.links[linkId];
    RelinkFits(s, linkId, b, ev);
    if Live(s, l.taskId) {
      var u := FollowEvent(s, l.taskId, l.origin, f, now);
      SameIdsValid(s, u);
      SetLinkIsValid(u, linkId, Relinked(l, b, ev));
    } else {
      var u := PublishSchedule(AddTask(s, f), s.nextTask, f, now);
      AddTaskIsValid(s, f);
      SameIdsValid(AddTask(s, f), u);
      SetLinkIsValid(u, linkId, Relinked(l, b, ev));
    }
  }

  lemma ImportIsValid(s: Store, b: Binding, ev: Event, now: int)
    requires Valid(s)
    ensures Valid(ApplyEvent(s, b, ev, now).store)
  {
    var target, f := Resolve(s, b, ev), MapEvent(ev, b, now);
    if ev.cancelled {
      if LinkOf(s, b, ev).Some? { CancelIsValid(s, LinkOf(s, b, ev).value, b.policy); }
    } else if target.Some? {
      if f.Some? { ThroughLinkIsValid(s, target.value, b, ev, f.value, now); }
    } else if OwnTask(ev).Some? {
      OwnEventFits(s, b, ev);
      if OwnTask(ev).value in s.tasks { AddLinkIsValid(s, NewLink(OwnTask(ev).value, b, ev, Exported)); }
    } else if f.Some? {
      CreateIsValid(s, b, ev, f.value, now);
    }
  }

  // ---------- the tables as they are written ----------

  class SyncTables {
    var tasks: map<int, Task>
    var nextTask: int
    var links: map<int, Link>
    var nextLink: int
    var jobs: seq<Job>

    constructor ()
      ensures Contents() == Store(map[], 1, map[], 1, [])
    {
      tasks, nextTask, links, nextLink, jobs := map[], 1, map[], 1, [];
    }

    function Contents(): Store
      reads this
    {
      Store(tasks, nextTask, links, nextLink, jobs)
    }

    method CreateTask(t: Task) returns (id: int)
      modifies this`tasks, this`nextTask
      ensures id == old(nextTask) && Contents() == AddTask(old(Contents()), t)
    {
      id := nextTask;
      tasks := tasks[id := t];
      nextTask := nextTask + 1;
    }

    // UpdateTask writes every column of a live row but messenger_related_user_id.
    method UpdateTask(id: int, t: Task)
      requires t.deleted == false
      modifies this`tasks
      ensures tasks == if Live(old(Contents()), id) then old(tasks)[id := Written(old(tasks)[id], t)] else old(tasks)
    {
      if id in tasks && !tasks[id].deleted {
        tasks := tasks[id := t.(chat := tasks[id].chat)];
      }
    }

    method DeleteTask(id: int)
      modifies this`tasks
      ensures tasks ==
              if Live(old(Contents()), id) then old(tasks)[id := old(tasks)[id].(deleted := true, status := Deleted)]
              else old(tasks)
    {
      if id in tasks && !tasks[id].deleted {
        tasks := tasks[id := tasks[id].(deleted := true, status := Deleted)];
      }
    }

    method CreateLink(l: Link) returns (ok: bool)
      modifies this`links, this`nextLink
      ensures ok <==> l.taskId in tasks && !Conflicts(old(links), l, None)
      ensures Contents() == if ok then AddLink(old(Contents()), l) else old(Contents())
    {
      ok := l.taskId in tasks && !Conflicts(links, l, None);
      if ok {
        links := links[nextLink := l];
        nextLink := nextLink + 1;
      }
    }

    // Update writes every column but task_id.
    method UpdateLink(id: int, l: Link) returns (ok: bool)
      modifies this`links
      ensures ok <==> id in old(links) && !Conflicts(old(links), l.(taskId := old(links)[id].taskId), Some(id))
      ensures links == if ok then old(links)[id := l.(taskId := old(links)[id].taskId)] else old(links)
    {
      ok := id in links && !Conflicts(links, l.(taskId := links[id].taskId), Some(id));
      if ok {
        links := links[id := l.(taskId := links[id].taskId)];
      }
    }

    method DeleteLink(id: int)
      modifies this`links
      ensures links == old(links) - {id}
    {
      links := links - {id};
    }

    method PublishTaskSchedule(taskId: int, t: Task, now: int)
      modifies this`jobs
      ensures Contents() == PublishSchedule(old(Contents()), taskId, t, now)
    {
      if t.chat.Some? && !t.muted && t.start > now {
        jobs := jobs + [ScheduleJob(taskId)];
      }
    }

    method PublishTaskDelete(taskId: int, t: Task)
      modifies this`jobs
      ensures Contents() == PublishDelete(old(Contents()), taskId, t)
    {
      if t.chat.Some? {
        jobs := jobs + [DeleteJob(taskId)];
      }
    }

    method ApplyImportedDeletePolicy(taskId: int, policy: DeletePolicy)
      requires Live(Contents(), taskId)
      modifies this`tasks, this`jobs
      ensures Contents() == ApplyDelete(old(Contents()), taskId, policy)
    {
      var t := tasks[taskId];
      if policy == DeleteImported {
        PublishTaskDelete(taskId, t);
        DeleteTask(taskId);
      } else if policy == MuteImported && !t.muted {
        PublishTaskDelete(taskId, t);
        UpdateTask(taskId, t.(muted := true));
      }
    }

    // The assignments made in memory.
    method CopyFields(stored: Task, f: Task, keepOpen: bool) returns (t: Task)
      ensures forall origin :: KeepsOpen(origin, f.status) == keepOpen ==> t == WithFields(stored, f, origin)
    {
      t := stored.(title := f.title, description := f.description, groupId := f.groupId);
      if t.chat.None? && f.chat.Some? {
        t := t.(chat := f.chat);
      }
      if !keepOpen {
        t := t.(start := f.start, rrule := f.rrule, status := f.status);
        if f.status == Finished {
          t := t.(finish := f.finish);
        } else if f.status == Scheduled {
          t := t.(finish := None);
        }
      }
    }

    method FollowGoogle(taskId: int, origin: Origin, f: Task, now: int)
      requires Live(Contents(), taskId)
      modifies this`tasks, this`jobs
      ensures Contents() == FollowEvent(old(Contents()), taskId, origin, f, now)
    {
      var stored := tasks[taskId];
      var scheduleChanged := ScheduleChanged(stored, f);
      var wasScheduled := IsScheduled(stored.status);
      var keepOpen := KeepsOpen(origin, f.status);
      var t := CopyFields(stored, f, keepOpen);
      if Changed(stored, t) {
        UpdateTask(taskId, t);
      }
      if !keepOpen {
        if f.status == Scheduled && (scheduleChanged || !wasScheduled) {
          PublishTaskSchedule(taskId, t, now);
        } else if wasScheduled && f.status != Scheduled {
          PublishTaskDelete(taskId, t);
        }
      }
    }

    // A task and a link for an event that has neither.
    method CreateFromEvent(b: Binding, ev: Event, f: Task, now: int) returns (ok: bool)
      requires Valid(Contents()) && LinkOf(Contents(), b, ev).None?
      modifies this
      ensures ok && Contents() == CreateImported(old(Contents()), b, ev, f, now)
    {
      NewEventFits(Contents(), b, ev);
      var taskId := CreateTask(f);
      ok := CreateLink(NewLink(taskId, b, ev, Imported));
      PublishTaskSchedule(taskId, f, now);
    }

    // A task behind a link follows the event, or is created anew when it is deleted.
    method UpdateFromEvent(linkId: int, b: Binding, ev: Event, f: Task, now: int) returns (ok: bool)
      requires Valid(Contents()) && linkId in links
      modifies this
      ensures ok && Contents() == UpdateThroughLink(old(Contents()), linkId, b, ev, f, now)
    {
      var l := links[linkId];
      RelinkFits(Contents(), linkId, b, ev);
      if l.taskId in tasks && !tasks[l.taskId].deleted {
        FollowGoogle(l.taskId, l.origin, f, now);
      } else {
        // The new id is set in memory only: UpdateLink does not write it.
        var taskId := CreateTask(f);
        l := l.(taskId := taskId);
        PublishTaskSchedule(taskId, f, now);
      }
      ok := UpdateLink(linkId, l.(etag := ev.etag, googleUpdated := ev.updated, duration := ev.duration,
                                  failed := false, bindingId := Some(b.id)));
    }

    method UpsertImportedEvent(b: Binding, ev: Event, now: int) returns (ok: bool)
      requires Valid(Contents())
      modifies this
      ensures Outcome(Contents(), ok) == ApplyEvent(old(Contents()), b, ev, now)
    {
      var link := EventLink(links, nextLink - 1, b.calendarId, ev.id);
      if ev.cancelled {
        if link.Some? {
          var taskId := links[link.value].taskId;
          if taskId in tasks && !tasks[taskId].deleted {
            ApplyImportedDeletePolicy(taskId, b.policy);
          } else {
            DeleteLink(link.value);
          }
        }
        return true;
      }
      if link.None? && ev.ownTask.Some? && ev.ownTask.value > 0 {
        link := TaskLink(links, nextLink - 1, ev.ownTask.value);
        if link.None? {
          OwnEventFits(Contents(), b, ev);
          ok := CreateLink(NewLink(ev.ownTask.value, b, ev, Exported));
          return;
        }
      }
      var fields := MapEvent(ev, b, now);
      if fields.None? {
        return false;
      }
      if link.None? {
        ok := CreateFromEvent(b, ev, fields.value, now);
      } else {
        ok := UpdateFromEvent(link.value, b, ev, fields.value, now);
      }
    }
  }
}
