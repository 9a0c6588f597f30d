/** What an import writes on a task, which job it publishes, and how tasks and published jobs agree
    after any deliveries. */
module ImportJobs {
  import opened Text
  import opened CalendarBindings
  import opened ImportStore
  import opened ImportReplay
  import opened ImportTasks

  // ---------- what an event says ----------

  // Some occurrence of the event that is known lies in the future.
  predicate Ahead(ev: Event, now: int)
    requires ev.start.Some?
  {
    ev.start.value > now || (ev.rrule.Some? && ev.next.Some? && ev.next.value > now)
  }

  // The start that goes on the task: a series that has begun is moved to its next occurrence.
  predicate IsStart(ev: Event, now: int, start: int)
    requires ev.start.Some?
  {
    || (start == ev.start.value && (ev.start.value > now || ev.rrule.None? || ev.next.None?))
    || (ev.rrule.Some? && ev.start.value <= now && ev.next == Some(start))
  }

  // Main result: every column a foreign event gives the task it creates.
  lemma MappedColumns(ev: Event, b: Binding, now: int)
    ensures MapEvent(ev, b, now).Some? <==> ev.start.Some?
    ensures ev.start.Some? ==>
              var f := MapEvent(ev, b, now).value;
              && f.title == (if Blank(ev.summary) then "(untitled event)" else TrimSpace(ev.summary))
              && f.description == ev.description && f.rrule == ev.rrule && f.cron.None? && f.parentId.None?
              && f.userId == b.userId && f.groupId == b.groupId && f.chat == b.chat
              && IsStart(ev, now, f.start) && !f.muted && !f.deleted
              && (f.status == Scheduled <==> Ahead(ev, now)) && (f.status == Finished <==> !Ahead(ev, now))
              && f.finish == (if Ahead(ev, now) then None
                              else if ev.end.Some? && ev.end.value <= now then ev.end else Some(f.start))
  {
    BlankTrims(ev.summary);
  }

  // ---------- the job of one delivery ----------

  // The task waits for its reminder.
  predicate Waits(t: Task) { t.status == Scheduled || t.status == Rescheduled || t.status == Postponed }

  predicate Differs(t: Task, ev: Event, now: int)
    requires ev.start.Some?
  {
    || t.title != (if Blank(ev.summary) then "(untitled event)" else TrimSpace(ev.summary))
    || t.description != ev.description || t.rrule != ev.rrule || !IsStart(ev, now, t.start)
  }

  function CreatedJobs(s: Store, b: Binding, ev: Event, now: int): seq<Job>
    requires ev.start.Some?
  {
    if b.chat.Some? && Ahead(ev, now) then [ScheduleJob(s.nextTask)] else []
  }

  // Task x is live behind a link of the given origin.
  function FollowedJobs(s: Store, x: int, origin: Origin, b: Binding, ev: Event, now: int): seq<Job>
    requires x in s.tasks && ev.start.Some?
  {
    var t := s.tasks[x];
    if t.chat.None? && b.chat.None? then []
    else if Ahead(ev, now) then if !t.muted && (!Waits(t) || Differs(t, ev, now)) then [ScheduleJob(x)] else []
    else if origin == Imported && Waits(t) then [DeleteJob(x)]
    else []
  }

  function CancelledJobs(s: Store, x: int, policy: DeletePolicy): seq<Job> {
    if !Live(s, x) || s.tasks[x].chat.None? then []
    else
      match policy
      case DeleteImported => [DeleteJob(x)]
      case MuteImported => if s.tasks[x].muted then [] else [DeleteJob(x)]
      case Keep => []
  }

  // Read off event and tables before the delivery.
  function DeliveryJobs(s: Store, b: Binding, ev: Event, now: int): seq<Job> {
    if ev.cancelled then
      match LinkOf(s, b, ev) case None => [] case Some(l) => CancelledJobs(s, s.links[l].taskId, b.policy)
    else if ev.start.None? then []
    else
      match Resolve(s, b, ev)
      case None => if OwnTask(ev).Some? then [] else CreatedJobs(s, b, ev, now)
      case Some(l) =>
        if Live(s, s.links[l].taskId) then FollowedJobs(s, s.links[l].taskId, s.links[l].origin, b, ev, now)
        else CreatedJobs(s, b, ev, now)
  }

  lemma StartIsMapped(ev: Event, now: int, start: int)
    requires ev.start.Some?
    ensures IsStart(ev, now, start) <==> start == MappedStart(ev, now)
  {
  }

  lemma FollowPublishes(s: Store, x: int, origin: Origin, b: Binding, ev: Event, now: int)
    requires x in s.tasks && MapEvent(ev, b, now).Some?
    ensures FollowEvent(s, x, origin, MapEvent(ev, b, now).value, now).jobs ==
            s.jobs + FollowedJobs(s, x, origin, b, ev, now)
  {
    MappedColumns(ev, b, now);
    StartIsMapped(ev, now, s.tasks[x].start);
    StartIsMapped(ev, now, MapEvent(ev, b, now).value.start);
    assert s.jobs + [] == s.jobs;
  }

  lemma CancelPublishes(s: Store, l: int, policy: DeletePolicy)
    requires l in s.links
    ensures ApplyCancelled(s, l, policy).jobs == s.jobs + CancelledJobs(s, s.links[l].taskId, policy)
  {
    assert s.jobs + [] == s.jobs;
  }

  lemma CreatePublishes(s: Store, l: int, b: Binding, ev: Event, now: int)
    requires MapEvent(ev, b, now).Some?
    ensures CreateImported(s, b, ev, MapEvent(ev, b, now).value, now).jobs == s.jobs + CreatedJobs(s, b, ev, now)
    ensures l in s.links && !Live(s, s.links[l].taskId) ==>
              UpdateThroughLink(s, l, b, ev, MapEvent(ev, b, now).value, now).jobs ==
              s.jobs + CreatedJobs(s, b, ev, now)
  {
    MappedColumns(ev, b, now);
    assert s.jobs + [] == s.jobs;
  }

  // Main result: a delivery publishes exactly one job or none. A created or recreated task with a
  // chat and a future start is scheduled under its new id; a followed one is scheduled when it is
  // not waiting yet or its schedule changed, and deleted when it was waiting and the event is over;
  // a cancellation deletes by policy.
  lemma DeliveryPublishes(s: Store, b: Binding, ev: Event, now: int)
    ensures ApplyEvent(s, b, ev, now).store.jobs == s.jobs + DeliveryJobs(s, b, ev, now)
    ensures |DeliveryJobs(s, b, ev, now)| <= 1
  {
    var target := Resolve(s, b, ev);
    assert s.jobs + [] == s.jobs;
    if ev.cancelled {
      if LinkOf(s, b, ev).Some? { CancelPublishes(s, LinkOf(s, b, ev).value, b.policy); }
    } else if ev.start.Some? {
      CreatePublishes(s, if target.Some? then target.value else 0, b, ev, now);
      if target.Some? && Live(s, s.links[target.value].taskId) {
        FollowPublishes(s, s.links[target.value].taskId, s.links[target.value].origin, b, ev, now);
      }
    }
  }

  // ---------- tasks and jobs agree ----------

  // The last job published for task x.
  function LastJob(jobs: seq<Job>, x: int): Option<Job>
    decreases |jobs|
  {
    if jobs == [] then None
    else
      var last := jobs[|jobs| - 1];
      if last.taskId == x then Some(last) else LastJob(jobs[..|jobs| - 1], x)
  }

  predicate Armed(jobs: seq<Job>, x: int) { LastJob(jobs, x) == Some(ScheduleJob(x)) }

  predicate WantsReminder(t: Task) { !t.deleted && !t.muted && Waits(t) }

  // For tasks with a delivery chat the worker was told last to remind exactly of those that are
  // live, unmuted and waiting.
  predicate TaskAgrees(s: Store, x: int)
    requires x in s.tasks
  {
    s.tasks[x].chat.Some? ==> (Armed(s.jobs, x) <==> WantsReminder(s.tasks[x]))
  }

  ghost predicate Agree(s: Store) {
    && (forall x :: x in s.tasks ==> x < s.nextTask && TaskAgrees(s, x))
    && (forall i :: 0 <= i < |s.jobs| ==> s.jobs[i].taskId < s.nextTask)
  }

  lemma {:induction false} NoJobYet(jobs: seq<Job>, x: int)
    requires forall i :: 0 <= i < |jobs| ==> jobs[i].taskId < x
    ensures LastJob(jobs, x).None?
    decreases |jobs|
  {
    if jobs != [] { NoJobYet(jobs[..|jobs| - 1], x); }
  }

  lemma ArmedAfter(jobs: seq<Job>, more: seq<Job>, x: int)
    requires |more| <= 1
    ensures Armed(jobs + more, x) <==>
            if |more| == 1 && more[0].taskId == x then more[0].ScheduleJob? else Armed(jobs, x)
  {
    if more == [] { assert jobs + more == jobs; } else { assert (jobs + more)[..|jobs|] == jobs; }
  }

  // How a delivery may leave task x: as it was, or with the columns and the job that go together.
  predicate StillAgrees(s: Store, t: Store, more: seq<Job>, x: int)
    requires x in t.tasks
  {
    var scheduled := |more| == 1 && more[0] == ScheduleJob(x);
    var dropped := |more| == 1 && more[0] == DeleteJob(x);
    t.tasks[x].chat.Some? ==>
      if scheduled then WantsReminder(t.tasks[x])
      else if dropped then !WantsReminder(t.tasks[x])
      else if x in s.tasks then s.tasks[x].chat.Some? && WantsReminder(s.tasks[x]) == WantsReminder(t.tasks[x])
      else !WantsReminder(t.tasks[x])
  }

  lemma DeliveryAgrees(s: Store, t: Store, more: seq<Job>)
    requires Agree(s) && |more| <= 1 && t.jobs == s.jobs + more && s.nextTask <= t.nextTask
    requires forall i :: 0 <= i < |more| ==> more[i].taskId < t.nextTask
    requires forall x :: x in t.tasks ==>
               (x in s.tasks || x == s.nextTask) && x < t.nextTask && StillAgrees(s, t, more, x)
    ensures Agree(t)
  {
    forall x | x in t.tasks ensures TaskAgrees(t, x) {
      assert StillAgrees(s, t, more, x);
      ArmedAfter(s.jobs, more, x);
      if x in s.tasks { assert TaskAgrees(s, x); } else { NoJobYet(s.jobs, x); }
    }
  }

  // Every row of t is one of s or the next new one.
  predicate RowsGrow(s: Store, t: Store) {
    s.nextTask <= t.nextTask && forall x :: x in t.tasks ==> x < t.nextTask && (x in s.tasks || x == s.nextTask)
  }

  ghost predicate AllStillAgree(s: Store, t: Store, more: seq<Job>) {
    forall x :: x in t.tasks ==> StillAgrees(s, t, more, x)
  }

  lemma FollowAgrees(s: Store, x: int, origin: Origin, b: Binding, ev: Event, now: int)
    requires Agree(s) && Live(s, x) && MapEvent(ev, b, now).Some?
    ensures var t := FollowEvent(s, x, origin, MapEvent(ev, b, now).value, now);
            RowsGrow(s, t) && AllStillAgree(s, t, FollowedJobs(s, x, origin, b, ev, now))
  {
    var t := FollowEvent(s, x, origin, MapEvent(ev, b, now).value, now);
    MappedColumns(ev, b, now);
    StartIsMapped(ev, now, s.tasks[x].start);
    FollowedRow(s, x, origin, b, ev, now);
    forall y | y in t.tasks ensures StillAgrees(s, t, FollowedJobs(s, x, origin, b, ev, now), y) {
      if y != x { assert t.tasks[y] == s.tasks[y]; }
    }
  }

  lemma FollowAssigns(s: Store, x: int, origin: Origin, f: Task, now: int)
    requires x in s.tasks
    ensures var t := FollowEvent(s, x, origin, f, now);
            t.tasks == s.tasks[x := AssignTask(s.tasks[x], f, origin)] && t.nextTask == s.nextTask
  {
    if !Changed(s.tasks[x], WithFields(s.tasks[x], f, origin)) {
      UnchangedIsWritten(s.tasks[x], f, origin);
      assert s.tasks[x := s.tasks[x]] == s.tasks;
    }
  }

  lemma AssignedColumns(t: Task, f: Task, origin: Origin)
    ensures var u := AssignTask(t, f, origin);
            && u.chat == t.chat && u.muted == t.muted && u.deleted == t.deleted
            && u.status == if origin == Exported && f.status == Finished then t.status else f.status
  {
  }

  // The row that was followed.
  lemma FollowedRow(s: Store, x: int, origin: Origin, b: Binding, ev: Event, now: int)
    requires Live(s, x) && MapEvent(ev, b, now).Some?
    ensures var t := FollowEvent(s, x, origin, MapEvent(ev, b, now).value, now);
            && t.tasks.Keys == s.tasks.Keys && t.nextTask == s.nextTask
            && (forall y :: y in s.tasks && y != x ==> t.tasks[y] == s.tasks[y])
            && t.tasks[x].chat == s.tasks[x].chat && t.tasks[x].muted == s.tasks[x].muted && !t.tasks[x].deleted
            && t.tasks[x].status == (if Ahead(ev, now) then Scheduled
                                     else if origin == Exported then s.tasks[x].status else Finished)
  {
    MappedColumns(ev, b, now);
    FollowAssigns(s, x, origin, MapEvent(ev, b, now).value, now);
    AssignedColumns(s.tasks[x], MapEvent(ev, b, now).value, origin);
  }

  lemma CreateAgrees(s: Store, l: int, b: Binding, ev: Event, now: int)
    requires Agree(s) && MapEvent(ev, b, now).Some?
    ensures var t := CreateImported(s, b, ev, MapEvent(ev, b, now).value, now);
            RowsGrow(s, t) && AllStillAgree(s, t, CreatedJobs(s, b, ev, now))
    ensures l in s.links && !Live(s, s.links[l].taskId) ==>
              var t := UpdateThroughLink(s, l, b, ev, MapEvent(ev, b, now).value, now);
              RowsGrow(s, t) && AllStillAgree(s, t, CreatedJobs(s, b, ev, now))
  {
    MappedColumns(ev, b, now);
  }

  lemma CancelAgrees(s: Store, l: int, policy: DeletePolicy)
    requires Agree(s) && l in s.links
    ensures RowsGrow(s, ApplyCancelled(s, l, policy))
    ensures AllStillAgree(s, ApplyCancelled(s, l, policy), CancelledJobs(s, s.links[l].taskId, policy))
  {
  }

  lemma NothingAgrees(s: Store, t: Store)
    requires Agree(s) && t.tasks == s.tasks && t.nextTask == s.nextTask
    ensures RowsGrow(s, t) && AllStillAgree(s, t, [])
  {
  }

  lemma RowsStillAgree(s: Store, b: Binding, ev: Event, now: int)
    requires Agree(s)
    ensures var t := ApplyEvent(s, b, ev, now).store;
            RowsGrow(s, t) && AllStillAgree(s, t, DeliveryJobs(s, b, ev, now))
  {
    var target := Resolve(s, b, ev);
    if ev.cancelled {
      if LinkOf(s, b, ev).Some? { CancelAgrees(s, LinkOf(s, b, ev).value, b.policy); } else { NothingAgrees(s, s); }
    } else if ev.start.None? || (target.None? && OwnTask(ev).Some?) {
      NothingAgrees(s, ApplyEvent(s, b, ev, now).store);
    } else {
      CreateAgrees(s, if target.Some? then target.value else 0, b, ev, now);
      if target.Some? && Live(s, s.links[target.value].taskId) {
        FollowAgrees(s, s.links[target.value].taskId, s.links[target.value].origin, b, ev, now);
      }
    }
  }

  lemma JobsAreOnRows(s: Store, b: Binding, ev: Event, now: int)
    requires Agree(s) && (forall l :: l in s.links ==> s.links[l].taskId < s.nextTask)
    ensures forall i :: 0 <= i < |DeliveryJobs(s, b, ev, now)| ==>
              DeliveryJobs(s, b, ev, now)[i].taskId < ApplyEvent(s, b, ev, now).store.nextTask
  {
    TaskCreatedExactly(s, b, ev, now);
  }

  lemma EachDeliveryAgrees(s: Store, b: Binding, ev: Event, now: int)
    requires Valid(s) && Agree(s)
    ensures Agree(ApplyEvent(s, b, ev, now).store)
  {
    DeliveryPublishes(s, b, ev, now);
    RowsStillAgree(s, b, ev, now);
    JobsAreOnRows(s, b, ev, now);
    DeliveryAgrees(s, ApplyEvent(s, b, ev, now).store, DeliveryJobs(s, b, ev, now));
  }

  // Main result: whatever is delivered, through any bindings and at any times, among the tasks with
  // a stored chat the last job published is a schedule exactly for those that are live, unmuted and
  // waiting for their reminder.
  lemma {:induction false} DeliveriesAgree(s: Store, ins: seq<Incoming>)
    requires Valid(s) && Agree(s)
    ensures Valid(Deliver(s, ins)) && Agree(Deliver(s, ins))
    decreases |ins|
  {
    if ins != [] {
      ImportIsValid(s, ins[0].b, ins[0].ev, ins[0].now);
      EachDeliveryAgrees(s, ins[0].b, ins[0].ev, ins[0].now);
      DeliveriesAgree(ApplyEvent(s, ins[0].b, ins[0].ev, ins[0].now).store, ins[1..]);
    }
  }

  lemma DeliveriesAgreeFromEmpty(ins: seq<Incoming>)
    ensures Agree(Deliver(Store(map[], 1, map[], 1, []), ins))
  {
    DeliveriesAgree(Store(map[], 1, map[], 1, []), ins);
  }
}
