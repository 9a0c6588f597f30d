/** What one delivery writes: every column of every task and link, read off the event and the tables
    before it. */
module ImportWrites {
  import opened Text
  import opened CalendarBindings
  import opened ImportStore
  import opened ImportReplay
  import opened ImportJobs

  // ---------- tasks ----------

  // A task made from the event for the binding's owner, group and chat.
  predicate MadeFrom(u: Task, b: Binding, ev: Event, now: int)
    requires ev.start.Some?
  {
    && Titled(u, b, ev) && Timed(u, ev, now) && u.userId == b.userId && u.chat == b.chat
    && u.parentId.None? && u.cron.None? && !u.muted && !u.deleted
  }

  predicate Titled(u: Task, b: Binding, ev: Event) {
    && u.title == (if Blank(ev.summary) then "(untitled event)" else TrimSpace(ev.summary))
    && u.description == ev.description && u.groupId == b.groupId
  }

  // Start, rule, status and finish are the event's.
  predicate Timed(u: Task, ev: Event, now: int)
    requires ev.start.Some?
  {
    && IsStart(ev, now, u.start) && u.rrule == ev.rrule
    && if Ahead(ev, now) then u.status == Scheduled && u.finish.None?
       else && u.status == Finished
            && u.finish == if ev.end.Some? && ev.end.value <= now then ev.end else Some(u.start)
  }

  predicate SameTimes(t: Task, u: Task) {
    u.start == t.start && u.rrule == t.rrule && u.status == t.status && u.finish == t.finish
  }

  // Task t after it followed the event: title, description and group are the event's, and so are
  // the times unless an exported reminder would be closed; the other columns stay.
  predicate Followed(t: Task, u: Task, origin: Origin, b: Binding, ev: Event, now: int)
    requires ev.start.Some?
  {
    && Titled(u, b, ev)
    && (if origin == Exported && !Ahead(ev, now) then SameTimes(t, u) else Timed(u, ev, now))
    && u.userId == t.userId && u.chat == t.chat && u.parentId == t.parentId && u.cron == t.cron
    && u.muted == t.muted && u.deleted == t.deleted
  }

  lemma AssignFollows(t: Task, origin: Origin, b: Binding, ev: Event, now: int)
    requires MapEvent(ev, b, now).Some?
    ensures Followed(t, AssignTask(t, MapEvent(ev, b, now).value, origin), origin, b, ev, now)
  {
    MappedColumns(ev, b, now);
  }

  lemma MappedIsMade(ev: Event, b: Binding, now: int)
    requires MapEvent(ev, b, now).Some?
    ensures MadeFrom(MapEvent(ev, b, now).value, b, ev, now)
  {
    MappedColumns(ev, b, now);
  }

  // ---------- links ----------

  // The columns of the event; the row remembers the binding it came through.
  predicate Carries(l: Link, b: Binding, ev: Event) {
    && l.etag == ev.etag && l.googleUpdated == ev.updated && l.duration == ev.duration
    && l.bindingId == Some(b.id) && !l.failed
  }

  predicate NewFor(l: Link, taskId: int, b: Binding, ev: Event, origin: Origin) {
    && Carries(l, b, ev) && l.taskId == taskId && l.calendarId == b.calendarId && l.eventId == ev.id
    && l.origin == origin && l.syncEnabled && !l.exportOptIn
  }

  predicate Refreshed(l: Link, k: Link, b: Binding, ev: Event) {
    && Carries(k, b, ev) && k.taskId == l.taskId && k.calendarId == l.calendarId && k.eventId == l.eventId
    && k.origin == l.origin && k.syncEnabled == l.syncEnabled && k.exportOptIn == l.exportOptIn
  }

  // ---------- a delivery ----------

  predicate SameRows(s: Store, t: Store) {
    t.tasks == s.tasks && t.links == s.links && t.nextTask == s.nextTask && t.nextLink == s.nextLink
  }

  predicate OneTaskAdded(s: Store, t: Store, b: Binding, ev: Event, now: int)
    requires ev.start.Some?
  {
    && s.nextTask in t.tasks && MadeFrom(t.tasks[s.nextTask], b, ev, now)
    && t.tasks == s.tasks[s.nextTask := t.tasks[s.nextTask]] && t.nextTask == s.nextTask + 1
  }

  predicate OneLinkAdded(s: Store, t: Store, taskId: int, b: Binding, ev: Event, origin: Origin) {
    && s.nextLink in t.links && NewFor(t.links[s.nextLink], taskId, b, ev, origin)
    && t.links == s.links[s.nextLink := t.links[s.nextLink]] && t.nextLink == s.nextLink + 1
  }

  predicate OneLinkRefreshed(s: Store, t: Store, l: int, b: Binding, ev: Event) {
    && l in s.links && l in t.links && Refreshed(s.links[l], t.links[l], b, ev)
    && t.links == s.links[l := t.links[l]] && t.nextLink == s.nextLink
  }

  predicate OneTaskFollowed(s: Store, t: Store, x: int, origin: Origin, b: Binding, ev: Event, now: int)
    requires ev.start.Some?
  {
    && x in s.tasks && x in t.tasks && Followed(s.tasks[x], t.tasks[x], origin, b, ev, now)
    && t.tasks == s.tasks[x := t.tasks[x]] && t.nextTask == s.nextTask
  }

  // A cancellation deletes or mutes the live task by policy; a link to a deleted one is removed.
  predicate Cancelled(s: Store, t: Store, l: int, policy: DeletePolicy)
    requires l in s.links
  {
    var x := s.links[l].taskId;
    && t.nextTask == s.nextTask && t.nextLink == s.nextLink
    && if Live(s, x) then
         && t.links == s.links
         && t.tasks == match policy
                       case DeleteImported => s.tasks[x := s.tasks[x].(deleted := true, status := Deleted)]
                       case MuteImported => s.tasks[x := s.tasks[x].(muted := true)]
                       case Keep => s.tasks
       else t.tasks == s.tasks && t.links == s.links - {l}
  }

  // An event that is not cancelled, delivered through link l.
  predicate ThroughLink(s: Store, t: Store, l: int, b: Binding, ev: Event, now: int)
    requires l in s.links && ev.start.Some?
  {
    && OneLinkRefreshed(s, t, l, b, ev)
    && if Live(s, s.links[l].taskId) then OneTaskFollowed(s, t, s.links[l].taskId, s.links[l].origin, b, ev, now)
       else OneTaskAdded(s, t, b, ev, now)
  }

  // ---------- the link a delivery acts on ----------

  predicate NamesEvent(s: Store, l: int, b: Binding, ev: Event) {
    l in s.links && s.links[l].calendarId == b.calendarId && s.links[l].eventId == ev.id
  }

  predicate LastOf(s: Store, taskId: int, l: int) {
    && l in s.links && s.links[l].taskId == taskId
    && forall k :: k in s.links && s.links[k].taskId == taskId ==> k <= l
  }

  // It is the link that names the event, or for an event of this program that no link names the
  // newest link of the task in its property.
  lemma ActsOnExactly(s: Store, b: Binding, ev: Event, l: int)
    requires Valid(s)
    ensures LinkOf(s, b, ev) == Some(l) <==> NamesEvent(s, l, b, ev)
    ensures Resolve(s, b, ev) == Some(l) <==>
            || NamesEvent(s, l, b, ev)
            || (&& (forall k :: !NamesEvent(s, k, b, ev))
                && ev.ownTask.Some? && ev.ownTask.value >= 1 && LastOf(s, ev.ownTask.value, l))
  {
    if NamesEvent(s, l, b, ev) { assert IsFor(s.links[l], b.calendarId, ev.id); }
    if LinkOf(s, b, ev).Some? { assert NamesEvent(s, LinkOf(s, b, ev).value, b, ev); }
  }

  // ---------- the whole delivery ----------

  // The event is one of this program's and no link leads to it.
  predicate OwnAndUnlinked(s: Store, b: Binding, ev: Event) {
    ev.ownTask.Some? && ev.ownTask.value >= 1 && Resolve(s, b, ev).None?
  }

  // What cannot be applied: a start that cannot be read, or an own event without its task row.
  predicate Refused(s: Store, b: Binding, ev: Event) {
    !ev.cancelled && if OwnAndUnlinked(s, b, ev) then ev.ownTask.value !in s.tasks else ev.start.None?
  }

  predicate Delivered(s: Store, t: Store, b: Binding, ev: Event, now: int) {
    if ev.cancelled then
      match LinkOf(s, b, ev) case None => SameRows(s, t) case Some(l) => Cancelled(s, t, l, b.policy)
    else if Refused(s, b, ev) then SameRows(s, t)
    else if OwnAndUnlinked(s, b, ev) then
      && OneLinkAdded(s, t, ev.ownTask.value, b, ev, Exported) && t.tasks == s.tasks && t.nextTask == s.nextTask
    else
      match Resolve(s, b, ev)
      case None => OneTaskAdded(s, t, b, ev, now) && OneLinkAdded(s, t, s.nextTask, b, ev, Imported)
      case Some(l) => ThroughLink(s, t, l, b, ev, now)
  }

  lemma FollowWrites(s: Store, x: int, origin: Origin, b: Binding, ev: Event, now: int)
    requires x in s.tasks && MapEvent(ev, b, now).Some?
    ensures var t := FollowEvent(s, x, origin, MapEvent(ev, b, now).value, now);
            OneTaskFollowed(s, t, x, origin, b, ev, now) && t.links == s.links && t.nextLink == s.nextLink
  {
    FollowAssigns(s, x, origin, MapEvent(ev, b, now).value, now);
    AssignFollows(s.tasks[x], origin, b, ev, now);
  }

  lemma ThroughLinkWrites(s: Store, l: int, b: Binding, ev: Event, now: int)
    requires l in s.links && MapEvent(ev, b, now).Some?
    ensures ThroughLink(s, UpdateThroughLink(s, l, b, ev, MapEvent(ev, b, now).value, now), l, b, ev, now)
  {
    MappedIsMade(ev, b, now);
    if Live(s, s.links[l].taskId) { FollowWrites(s, s.links[l].taskId, s.links[l].origin, b, ev, now); }
  }

  lemma CreateWrites(s: Store, b: Binding, ev: Event, now: int)
    requires MapEvent(ev, b, now).Some?
    ensures var t := CreateImported(s, b, ev, MapEvent(ev, b, now).value, now);
            OneTaskAdded(s, t, b, ev, now) && OneLinkAdded(s, t, s.nextTask, b, ev, Imported)
  {
    MappedIsMade(ev, b, now);
  }

  lemma CancelWrites(s: Store, l: int, policy: DeletePolicy)
    requires l in s.links
    ensures Cancelled(s, ApplyCancelled(s, l, policy), l, policy)
  {
    var x := s.links[l].taskId;
    if Live(s, x) && s.tasks[x].muted { assert s.tasks[x := s.tasks[x].(muted := true)] == s.tasks; }
  }

  // Main result: every row a delivery writes, with all its columns, and that it writes no other; it
  // is refused exactly when the event cannot be applied, and then writes nothing.
  lemma DeliveryWrites(s: Store, b: Binding, ev: Event, now: int)
    ensures ApplyEvent(s, b, ev, now).ok <==> !Refused(s, b, ev)
    ensures Delivered(s, ApplyEvent(s, b, ev, now).store, b, ev, now)
  {
    var target := Resolve(s, b, ev);
    MappedColumns(ev, b, now);
    if ev.cancelled {
      if LinkOf(s, b, ev).Some? { CancelWrites(s, LinkOf(s, b, ev).value, b.policy); }
    } else if ev.start.Some? {
      if target.Some? { ThroughLinkWrites(s, target.value, b, ev, now); } else { CreateWrites(s, b, ev, now); }
    }
  }
}
