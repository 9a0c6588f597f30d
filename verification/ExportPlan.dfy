/** EnqueueExport: which outbox rows a change of a task asks for, as sets of bindings, and the
    loops that write them. */
module ExportPlan {
  import opened Text
  import opened CalendarBindings
  import opened ImportStore
  import opened Outbox

  const EXPORT_UPSERT := "export_upsert"
  const EXPORT_DELETE := "export_delete"
  const DELETED := "deleted"

  // ShouldExportTask
  predicate ShouldExport(t: Task) { t.parentId.None? }

  // taskMatchesExportBindingGroup
  predicate InGroup(t: Task, b: Binding) { b.groupId.None? || t.groupId == b.groupId }

  type Bindings = map<int, Binding>

  // The key of the table is the id column, a serial number.
  predicate Keyed(bindings: Bindings) { forall id :: id in bindings ==> id >= 1 && bindings[id].id == id }

  // GetByID does not find soft-deleted bindings.
  predicate Present(bindings: Bindings, id: int) { id in bindings && !bindings[id].deleted }

  // The binding a link exports to, if it is there and allows exports.
  function LinkTarget(bindings: Bindings, link: Option<Link>): Option<Binding> {
    if link.None? || !link.value.syncEnabled || link.value.bindingId.None? then None
    else if !Present(bindings, link.value.bindingId.value) then None
    else
      var b := bindings[link.value.bindingId.value];
      if AllowsExport(b.direction) then Some(b) else None
  }

  // ---------- the specification: a set of bindings for each kind of row ----------

  // Binding id is reached by the link of the changed row itself.
  predicate ByLink(bindings: Bindings, link: Option<Link>, id: int) {
    LinkTarget(bindings, link).Some? && LinkTarget(bindings, link).value.id == id
  }

  // t has left the group of its link's binding, and nobody opted it in.
  predicate LeftGroup(t: Task, bindings: Bindings, link: Option<Link>) {
    LinkTarget(bindings, link).Some? && !InGroup(t, LinkTarget(bindings, link).value) && !link.value.exportOptIn
  }

  // Binding id is one of the owner's, exports, and has task t in scope.
  predicate ByOwner(t: Task, bindings: Bindings, id: int) {
    && Present(bindings, id) && bindings[id].userId == t.userId
    && AllowsExport(bindings[id].direction) && InGroup(t, bindings[id])
  }

  function Removes(t: Task, bindings: Bindings, link: Option<Link>, action: string): set<int> {
    set id | id in bindings &&
      (if action == DELETED then ByLink(bindings, link, id) || ByOwner(t, bindings, id)
       else ByLink(bindings, link, id) && LeftGroup(t, bindings, link))
  }

  function Upserts(t: Task, bindings: Bindings, link: Option<Link>, action: string): set<int> {
    if action == DELETED then {}
    else
      set id | id in bindings && id !in Removes(t, bindings, link, action)
               && (ByLink(bindings, link, id) || ByOwner(t, bindings, id))
  }

  datatype Asked = Asked(kind: string, payload: Payload)

  function UpsertFor(taskId: int, action: string, id: int): Asked {
    Asked(EXPORT_UPSERT, Payload(taskId, id, 0, action))
  }

  function RemoveFor(taskId: int, id: int): Asked { Asked(EXPORT_DELETE, Payload(taskId, id, 0, DELETED)) }

  function RemoveByLink(taskId: int, linkId: int): Asked { Asked(EXPORT_DELETE, Payload(taskId, 0, linkId, "")) }

  function UpsertRows(taskId: int, action: string, ids: set<int>): set<Asked> {
    set id | id in ids :: UpsertFor(taskId, action, id)
  }

  function RemoveRows(taskId: int, ids: set<int>): set<Asked> {
    set id | id in ids :: RemoveFor(taskId, id)
  }

  // The id of the newest link of a task.
  function NewestLink(s: Store, taskId: int): Option<int> { TaskLink(s.links, s.nextLink - 1, taskId) }

  function LinkRow(s: Store, taskId: int): Option<Link> {
    match NewestLink(s, taskId) case None => None case Some(id) => if id in s.links then Some(s.links[id]) else None
  }

  // enqueueExportDeleteByExportedLink
  function ExportedLinkRows(s: Store, taskId: int): multiset<Asked> {
    match NewestLink(s, taskId)
    case None => multiset{}
    case Some(id) =>
      if id in s.links && s.links[id].origin == Exported then multiset{RemoveByLink(taskId, id)} else multiset{}
  }

  // enqueueExportDeleteForGoneTask
  function GoneTaskRows(s: Store, bindings: Bindings, taskId: int): multiset<Asked> {
    var target := LinkTarget(bindings, LinkRow(s, taskId));
    if target.Some? then multiset{RemoveFor(taskId, target.value.id)} else ExportedLinkRows(s, taskId)
  }

  function LiveTaskRows(s: Store, bindings: Bindings, taskId: int, action: string): multiset<Asked>
    requires taskId in s.tasks
  {
    var t, link := s.tasks[taskId], LinkRow(s, taskId);
    var ups, downs := Upserts(t, bindings, link, action), Removes(t, bindings, link, action);
    if ups == {} && downs == {} && action == DELETED then ExportedLinkRows(s, taskId)
    else multiset(UpsertRows(taskId, action, ups)) + multiset(RemoveRows(taskId, downs))
  }

  // EnqueueExport
  function ExportRows(s: Store, bindings: Bindings, taskId: int, action: string): multiset<Asked> {
    if !Live(s, taskId) then (if action == DELETED then GoneTaskRows(s, bindings, taskId) else multiset{})
    else if !ShouldExport(s.tasks[taskId]) then multiset{}
    else LiveTaskRows(s, bindings, taskId, action)
  }

  // ---------- what the rows are ----------

  lemma DisjointRows(taskId: int, action: string, ups: set<int>, downs: set<int>, a: Asked, c: Asked)
    requires ups !! downs
    requires a in multiset(UpsertRows(taskId, action, ups)) + multiset(RemoveRows(taskId, downs))
    requires c in multiset(UpsertRows(taskId, action, ups)) + multiset(RemoveRows(taskId, downs))
    ensures (multiset(UpsertRows(taskId, action, ups)) + multiset(RemoveRows(taskId, downs)))[a] == 1
    ensures a.payload.bindingId == c.payload.bindingId ==> a == c
  {
    assert a.payload.bindingId in (if a in UpsertRows(taskId, action, ups) then ups else downs);
    assert c.payload.bindingId in (if c in UpsertRows(taskId, action, ups) then ups else downs);
  }

  // Delete wins over upsert, and each binding gets at most one row.
  lemma OneRowPerBinding(s: Store, bindings: Bindings, taskId: int, action: string, a: Asked, c: Asked)
    requires Keyed(bindings)
    requires a in ExportRows(s, bindings, taskId, action) && c in ExportRows(s, bindings, taskId, action)
    ensures ExportRows(s, bindings, taskId, action)[a] == 1
    ensures a.payload.bindingId == c.payload.bindingId ==> a == c
  {
    if Live(s, taskId) {
      var t, link := s.tasks[taskId], LinkRow(s, taskId);
      var ups, downs := Upserts(t, bindings, link, action), Removes(t, bindings, link, action);
      if !(ups == {} && downs == {} && action == DELETED) { DisjointRows(taskId, action, ups, downs, a, c); }
    }
  }

  lemma UpsertsInScope(t: Task, bindings: Bindings, link: Option<Link>, action: string, id: int)
    requires Keyed(bindings) && id in Upserts(t, bindings, link, action)
    ensures id >= 1 && Present(bindings, id) && AllowsExport(bindings[id].direction) && action != DELETED
    ensures InGroup(t, bindings[id]) || (link.Some? && link.value.exportOptIn)
  {
  }

  lemma RemovesInScope(t: Task, bindings: Bindings, link: Option<Link>, action: string, id: int)
    requires Keyed(bindings) && id in Removes(t, bindings, link, action)
    ensures id >= 1 && Present(bindings, id) && AllowsExport(bindings[id].direction)
  {
  }

  // A row with a binding is for one that exports, so import-only bindings never get one, and an
  // upsert is for a live task in scope or opted in.
  predicate InScope(s: Store, bindings: Bindings, taskId: int, action: string, a: Asked) {
    var id := a.payload.bindingId;
    && a.payload.taskId == taskId
    && (id != 0 ==> Present(bindings, id) && AllowsExport(bindings[id].direction))
    && (a.kind == EXPORT_DELETE
        || (&& a.kind == EXPORT_UPSERT && id != 0 && id in bindings && action != DELETED && Live(s, taskId)
            && (InGroup(s.tasks[taskId], bindings[id])
                || (LinkRow(s, taskId).Some? && LinkRow(s, taskId).value.exportOptIn))))
  }

  lemma LiveRowsInScope(s: Store, bindings: Bindings, taskId: int, action: string, a: Asked)
    requires Keyed(bindings) && Live(s, taskId) && a in LiveTaskRows(s, bindings, taskId, action)
    ensures InScope(s, bindings, taskId, action, a)
  {
    var t, link := s.tasks[taskId], LinkRow(s, taskId);
    var ups, downs := Upserts(t, bindings, link, action), Removes(t, bindings, link, action);
    if a in UpsertRows(taskId, action, ups) {
      var id :| id in ups && a == UpsertFor(taskId, action, id);
      UpsertsInScope(t, bindings, link, action, id);
    } else if a in RemoveRows(taskId, downs) {
      var id :| id in downs && a == RemoveFor(taskId, id);
      RemovesInScope(t, bindings, link, action, id);
    }
  }

  lemma RowsAreInScope(s: Store, bindings: Bindings, taskId: int, action: string, a: Asked)
    requires Keyed(bindings) && a in ExportRows(s, bindings, taskId, action)
    ensures InScope(s, bindings, taskId, action, a)
    ensures Live(s, taskId) ==> ShouldExport(s.tasks[taskId])
  {
    if Live(s, taskId) { LiveRowsInScope(s, bindings, taskId, action, a); }
  }

  // ---------- the rows of a live task, in full ----------

  predicate Exporting(bindings: Bindings, id: int) {
    id in bindings && !bindings[id].deleted && bindings[id].direction != ImportOnly
  }

  // A binding without a group takes every task, another one those of its group.
  predicate SameGroup(t: Task, b: Binding) { b.groupId == None || t.groupId == Some(b.groupId.value) }

  predicate LinkedTo(link: Option<Link>, id: int) {
    link.Some? && link.value.syncEnabled && link.value.bindingId == Some(id)
  }

  // The link leads to the binding, or the binding is one of the owner's and takes the task.
  predicate Concerns(t: Task, bindings: Bindings, link: Option<Link>, id: int) {
    Exporting(bindings, id) && (LinkedTo(link, id) || (bindings[id].userId == t.userId && SameGroup(t, bindings[id])))
  }

  // The task may stay in the calendar: it is in the group, or its link was opted in to the binding.
  predicate MayStay(t: Task, bindings: Bindings, link: Option<Link>, id: int) {
    id in bindings && (SameGroup(t, bindings[id]) || (LinkedTo(link, id) && link.value.exportOptIn))
  }

  lemma SetsExactly(t: Task, bindings: Bindings, link: Option<Link>, action: string, id: int)
    requires Keyed(bindings)
    ensures id in Upserts(t, bindings, link, action) <==>
              action != DELETED && Concerns(t, bindings, link, id) && MayStay(t, bindings, link, id)
    ensures id in Removes(t, bindings, link, action) <==>
              Concerns(t, bindings, link, id) && (action == DELETED || !MayStay(t, bindings, link, id))
  {
    if LinkedTo(link, id) && Exporting(bindings, id) { assert LinkTarget(bindings, link) == Some(bindings[id]); }
  }

  // A change of a live task without parent asks each binding it concerns for one row: an upsert
  // when it may stay there, so also outside the group once it was opted in, else a delete; its
  // deletion asks each of them for a delete.
  lemma LiveRowsExactly(s: Store, bindings: Bindings, taskId: int, action: string, id: int)
    requires Keyed(bindings) && Live(s, taskId) && s.tasks[taskId].parentId.None?
    ensures var rows, t, link := ExportRows(s, bindings, taskId, action), s.tasks[taskId], LinkRow(s, taskId);
            && (UpsertFor(taskId, action, id) in rows <==>
                  action != DELETED && Concerns(t, bindings, link, id) && MayStay(t, bindings, link, id))
            && (RemoveFor(taskId, id) in rows <==>
                  Concerns(t, bindings, link, id) && (action == DELETED || !MayStay(t, bindings, link, id)))
  {
    var t, link := s.tasks[taskId], LinkRow(s, taskId);
    var ups, downs := Upserts(t, bindings, link, action), Removes(t, bindings, link, action);
    SetsExactly(t, bindings, link, action, id);
    assert UpsertFor(taskId, action, id) in UpsertRows(taskId, action, ups) <==> id in ups;
    assert RemoveFor(taskId, id) in RemoveRows(taskId, downs) <==> id in downs;
  }

  // The newest link of the task is l, and it names an event this program put into a calendar.
  predicate OwnLink(s: Store, taskId: int, l: int) {
    NewestLink(s, taskId) == Some(l) && l in s.links && s.links[l].origin != Imported
  }

  ghost predicate NoneConcerned(s: Store, bindings: Bindings, taskId: int)
    requires taskId in s.tasks
  {
    forall id :: !Concerns(s.tasks[taskId], bindings, LinkRow(s, taskId), id)
  }

  ghost predicate LinkedToNone(s: Store, bindings: Bindings, taskId: int) {
    forall id :: !(LinkedTo(LinkRow(s, taskId), id) && Exporting(bindings, id))
  }

  lemma NoSets(t: Task, bindings: Bindings, link: Option<Link>)
    requires Keyed(bindings)
    ensures (forall id :: !Concerns(t, bindings, link, id)) <==>
            Upserts(t, bindings, link, DELETED) == {} && Removes(t, bindings, link, DELETED) == {}
  {
    forall id ensures id in Removes(t, bindings, link, DELETED) <==> Concerns(t, bindings, link, id) {
      SetsExactly(t, bindings, link, DELETED, id);
    }
    assert (forall id :: id !in Removes(t, bindings, link, DELETED)) ==> Removes(t, bindings, link, DELETED) == {};
  }

  // A row that is gone asks for deletes only, on its deletion: of the exporting binding its link
  // leads to, or without one by the link itself if the event was exported. A live one asks by its
  // link when its deletion concerns no binding.
  lemma GoneRowsExactly(s: Store, bindings: Bindings, taskId: int, action: string, id: int, l: int)
    requires Keyed(bindings) && !Live(s, taskId)
    ensures var rows, link := ExportRows(s, bindings, taskId, action), LinkRow(s, taskId);
            && UpsertFor(taskId, action, id) !in rows
            && (RemoveFor(taskId, id) in rows <==> action == DELETED && LinkedTo(link, id) && Exporting(bindings, id))
            && (RemoveByLink(taskId, l) in rows <==>
                  action == DELETED && OwnLink(s, taskId, l) && LinkedToNone(s, bindings, taskId))
  {
    var link := LinkRow(s, taskId);
    var target := LinkTarget(bindings, link);
    if target.Some? {
      assert LinkedTo(link, target.value.id) && Exporting(bindings, target.value.id);
    } else {
      assert forall k :: !(LinkedTo(link, k) && Exporting(bindings, k));
    }
  }

  lemma DeletionByLinkExactly(s: Store, bindings: Bindings, taskId: int, action: string, l: int)
    requires Keyed(bindings) && Live(s, taskId)
    ensures RemoveByLink(taskId, l) in ExportRows(s, bindings, taskId, action) <==>
            && action == DELETED && s.tasks[taskId].parentId.None?
            && OwnLink(s, taskId, l) && NoneConcerned(s, bindings, taskId)
  {
    var t, link := s.tasks[taskId], LinkRow(s, taskId);
    NoSets(t, bindings, link);
    assert forall ids: set<int> :: RemoveByLink(taskId, l) in RemoveRows(taskId, ids) ==> 0 in ids;
    SetsExactly(t, bindings, link, action, 0);
  }

  predicate HasExportedLink(s: Store, taskId: int) {
    LinkRow(s, taskId).Some? && LinkRow(s, taskId).value.origin == Exported
  }

  // A child task gets no row while it is live. Once deleted it gets one, a delete, exactly when its
  // newest link leads to an exporting binding or is of exported origin: that path does not look
  // at the parent.
  lemma ChildRowsExactly(s: Store, bindings: Bindings, taskId: int, action: string)
    requires taskId in s.tasks && !ShouldExport(s.tasks[taskId])
    ensures var rows, target := ExportRows(s, bindings, taskId, action), LinkTarget(bindings, LinkRow(s, taskId));
            && (rows != multiset{} <==>
                  s.tasks[taskId].deleted && action == DELETED && (target.Some? || HasExportedLink(s, taskId)))
            && (rows != multiset{} ==>
                  rows == multiset{if target.Some? then RemoveFor(taskId, target.value.id)
                                   else RemoveByLink(taskId, NewestLink(s, taskId).value)})
  {
    var target := LinkTarget(bindings, LinkRow(s, taskId));
    if target.Some? {
      assert RemoveFor(taskId, target.value.id) in multiset{RemoveFor(taskId, target.value.id)};
    } else if HasExportedLink(s, taskId) {
      var a := RemoveByLink(taskId, NewestLink(s, taskId).value);
      assert a in multiset{a};
    }
  }

  // Leaving the group without opt-in asks for a delete; a deleted task with an export-capable
  // link is always removed from that calendar, before and after the row itself is gone.
  lemma LeavingAsksForDelete(s: Store, bindings: Bindings, taskId: int, action: string)
    requires Keyed(bindings) && LinkTarget(bindings, LinkRow(s, taskId)).Some?
    requires Live(s, taskId) ==> ShouldExport(s.tasks[taskId])
    requires action == DELETED || (Live(s, taskId) && LeftGroup(s.tasks[taskId], bindings, LinkRow(s, taskId)))
    ensures RemoveFor(taskId, LinkTarget(bindings, LinkRow(s, taskId)).value.id) in
            ExportRows(s, bindings, taskId, action)
  {
    var id := LinkTarget(bindings, LinkRow(s, taskId)).value.id;
    if Live(s, taskId) {
      assert id in Removes(s.tasks[taskId], bindings, LinkRow(s, taskId), action);
      var downs := Removes(s.tasks[taskId], bindings, LinkRow(s, taskId), action);
      assert RemoveFor(taskId, id) in RemoveRows(taskId, downs);
    }
  }

  // ---------- the loops ----------

  // The rows of the table with ids from lo to hi, as what was asked for.
  function Added(rows: Rows, lo: int, hi: int): multiset<Asked>
    decreases hi - lo
  {
    if hi <= lo then multiset{}
    else
      var last := if hi - 1 in rows then multiset{Asked(rows[hi - 1].kind, rows[hi - 1].payload)} else multiset{};
      Added(rows, lo, hi - 1) + last
  }

  lemma {:induction false} AddedBelow(rows: Rows, lo: int, hi: int, id: int, row: Row)
    requires hi <= id
    ensures Added(rows[id := row], lo, hi) == Added(rows, lo, hi)
    decreases hi - lo
  {
    if lo < hi { AddedBelow(rows, lo, hi - 1, id, row); }
  }

  // Earlier rows stay and new ones are fresh.
  predicate OnlyAdds(was: Rows, lo: int, now: Rows, hi: int, time: int) {
    && lo <= hi && was.Keys <= now.Keys && (forall id :: id in was ==> now[id] == was[id])
    && (forall id :: id in now && id !in was ==> lo <= id < hi && now[id] == Fresh(now[id].kind, now[id].payload, time))
  }

  lemma UpsertRowsStep(taskId: int, action: string, ids: set<int>, id: int)
    requires id in ids
    ensures multiset(UpsertRows(taskId, action, ids)) ==
            multiset(UpsertRows(taskId, action, ids - {id})) + multiset{UpsertFor(taskId, action, id)}
  {
    var less := UpsertRows(taskId, action, ids - {id});
    assert UpsertRows(taskId, action, ids) == less + {UpsertFor(taskId, action, id)} by {
      forall a | a in UpsertRows(taskId, action, ids) ensures a in less + {UpsertFor(taskId, action, id)} {
        var k :| k in ids && a == UpsertFor(taskId, action, k);
        assert k != id ==> k in ids - {id};
      }
    }
    assert UpsertFor(taskId, action, id) !in less;
  }

  lemma RemoveRowsStep(taskId: int, ids: set<int>, id: int)
    requires id in ids
    ensures multiset(RemoveRows(taskId, ids)) ==
            multiset(RemoveRows(taskId, ids - {id})) + multiset{RemoveFor(taskId, id)}
  {
    var less := RemoveRows(taskId, ids - {id});
    assert RemoveRows(taskId, ids) == less + {RemoveFor(taskId, id)} by {
      forall a | a in RemoveRows(taskId, ids) ensures a in less + {RemoveFor(taskId, id)} {
        var k :| k in ids && a == RemoveFor(taskId, k);
        assert k != id ==> k in ids - {id};
      }
    }
    assert RemoveFor(taskId, id) !in less;
  }

  method EnqueueAsked(table: OutboxTable, a: Asked, now: int, ghost was: Rows, ghost lo: int)
    requires table.Valid() && OnlyAdds(was, lo, table.rows, table.nextId, now)
    modifies table
    ensures table.Valid() && OnlyAdds(was, lo, table.rows, table.nextId, now)
    ensures Added(table.rows, lo, table.nextId) == Added(old(table.rows), lo, old(table.nextId)) + multiset{a}
  {
    AddedBelow(table.rows, lo, table.nextId, table.nextId, Fresh(a.kind, a.payload, now));
    var _ := table.Enqueue(a.kind, a.payload, now);
  }

  // The map loops: each iteration takes any binding that is left.
  method EnqueueUpserts(
      table: OutboxTable, taskId: int, action: string, ids: set<int>, now: int, ghost was: Rows, ghost lo: int)
    requires table.Valid() && OnlyAdds(was, lo, table.rows, table.nextId, now)
    modifies table
    ensures table.Valid() && OnlyAdds(was, lo, table.rows, table.nextId, now)
    ensures Added(table.rows, lo, table.nextId) ==
            Added(old(table.rows), lo, old(table.nextId)) + multiset(UpsertRows(taskId, action, ids))
  {
    var left := ids;
    while left != {}
      invariant table.Valid() && OnlyAdds(was, lo, table.rows, table.nextId, now)
      invariant Added(table.rows, lo, table.nextId) + multiset(UpsertRows(taskId, action, left)) ==
                Added(old(table.rows), lo, old(table.nextId)) + multiset(UpsertRows(taskId, action, ids))
      decreases left
    {
      assert (forall k :: k !in left) ==> left == {};
      var id :| id in left;
      UpsertRowsStep(taskId, action, left, id);
      EnqueueAsked(table, UpsertFor(taskId, action, id), now, was, lo);
      left := left - {id};
    }
    assert UpsertRows(taskId, action, {}) == {};
  }

  method EnqueueRemoves(table: OutboxTable, taskId: int, ids: set<int>, now: int, ghost was: Rows, ghost lo: int)
    requires table.Valid() && OnlyAdds(was, lo, table.rows, table.nextId, now)
    modifies table
    ensures table.Valid() && OnlyAdds(was, lo, table.rows, table.nextId, now)
    ensures Added(table.rows, lo, table.nextId) ==
            Added(old(table.rows), lo, old(table.nextId)) + multiset(RemoveRows(taskId, ids))
  {
    var left := ids;
    while left != {}
      invariant table.Valid() && OnlyAdds(was, lo, table.rows, table.nextId, now)
      invariant Added(table.rows, lo, table.nextId) + multiset(RemoveRows(taskId, left)) ==
                Added(old(table.rows), lo, old(table.nextId)) + multiset(RemoveRows(taskId, ids))
      decreases left
    {
      assert (forall k :: k !in left) ==> left == {};
      var id :| id in left;
      RemoveRowsStep(taskId, left, id);
      EnqueueAsked(table, RemoveFor(taskId, id), now, was, lo);
      left := left - {id};
    }
    assert RemoveRows(taskId, {}) == {};
  }

  // ListByUserID: the owner's bindings that are not soft-deleted, each once.
  predicate Listing(bindings: Bindings, userId: int, listed: seq<Binding>) {
    && (forall i :: 0 <= i < |listed| ==>
          var id := listed[i].id; Present(bindings, id) && bindings[id] == listed[i] && listed[i].userId == userId)
    && (forall id :: id in bindings && Present(bindings, id) && bindings[id].userId == userId ==>
          bindings[id] in listed)
  }

  // The two sets before deletes take precedence, as the link and the loop over the owner's
  // bindings fill them.
  method CollectIds(t: Task, bindings: Bindings, link: Option<Link>, listed: seq<Binding>, action: string)
    returns (ups: set<int>, downs: set<int>)
    requires Keyed(bindings) && Listing(bindings, t.userId, listed)
    ensures downs == Removes(t, bindings, link, action) && ups - downs == Upserts(t, bindings, link, action)
  {
    ups, downs := {}, {};
    var target := LinkTarget(bindings, link);
    if target.Some? {
      if action == DELETED {
        downs := downs + {target.value.id};
      } else if !InGroup(t, target.value) && !link.value.exportOptIn {
        downs := downs + {target.value.id};
      } else {
        ups := ups + {target.value.id};
      }
    }
    ghost var ups0, downs0 := ups, downs;
    var i := 0;
    while i < |listed|
      invariant 0 <= i <= |listed|
      invariant forall id :: id in downs <==> id in downs0 || (action == DELETED && Reached(t, listed, i, id))
      invariant forall id :: id in ups <==> id in ups0 || (action != DELETED && Reached(t, listed, i, id))
    {
      var b := listed[i];
      if AllowsExport(b.direction) && InGroup(t, b) {
        if action == DELETED {
          downs := downs + {b.id};
        } else {
          ups := ups + {b.id};
        }
      }
      i := i + 1;
    }
    ReachedAll(t, bindings, listed);
    TargetIsKeyed(bindings, link);
    assert forall id :: id in downs <==> id in Removes(t, bindings, link, action);
    assert forall id :: id in ups && id !in downs <==> id in Upserts(t, bindings, link, action);
  }

  lemma TargetIsKeyed(bindings: Bindings, link: Option<Link>)
    requires Keyed(bindings)
    ensures LinkTarget(bindings, link).Some? ==> LinkTarget(bindings, link).value.id in bindings
  {
  }

  // One of the first n listed bindings has this id, exports, and has task t in scope.
  predicate Reached(t: Task, listed: seq<Binding>, n: int, id: int)
    requires n <= |listed|
  {
    exists j :: 0 <= j < n && listed[j].id == id && AllowsExport(listed[j].direction) && InGroup(t, listed[j])
  }

  lemma ReachedAll(t: Task, bindings: Bindings, listed: seq<Binding>)
    requires Keyed(bindings) && Listing(bindings, t.userId, listed)
    ensures forall id :: Reached(t, listed, |listed|, id) <==> ByOwner(t, bindings, id)
  {
    forall id | ByOwner(t, bindings, id) ensures Reached(t, listed, |listed|, id) {
      var j :| 0 <= j < |listed| && listed[j] == bindings[id];
    }
  }

  method EnqueueForGoneTask(
      table: OutboxTable, s: Store, bindings: Bindings, taskId: int, now: int, ghost was: Rows, ghost lo: int)
    requires table.Valid() && OnlyAdds(was, lo, table.rows, table.nextId, now)
    modifies table
    ensures table.Valid() && OnlyAdds(was, lo, table.rows, table.nextId, now)
    ensures Added(table.rows, lo, table.nextId) ==
            Added(old(table.rows), lo, old(table.nextId)) + GoneTaskRows(s, bindings, taskId)
  {
    var target := LinkTarget(bindings, LinkRow(s, taskId));
    if target.Some? {
      EnqueueAsked(table, RemoveFor(taskId, target.value.id), now, was, lo);
    } else {
      EnqueueByExportedLink(table, s, taskId, now, was, lo);
    }
  }

  // EnqueueExport: the rows it adds are the ones the sets ask for, whatever the order in which
  // the maps are iterated, and nothing else changes.
  method EnqueueExport(
      table: OutboxTable, s: Store, bindings: Bindings, listed: seq<Binding>, taskId: int, action: string, now: int)
    requires table.Valid() && Keyed(bindings)
    requires Live(s, taskId) ==> Listing(bindings, s.tasks[taskId].userId, listed)
    modifies table
    ensures table.Valid() && OnlyAdds(old(table.rows), old(table.nextId), table.rows, table.nextId, now)
    ensures Added(table.rows, old(table.nextId), table.nextId) == ExportRows(s, bindings, taskId, action)
  {
    ghost var was, lo := table.rows, table.nextId;
    var link := LinkRow(s, taskId);
    if !Live(s, taskId) {
      if action == DELETED {
        EnqueueForGoneTask(table, s, bindings, taskId, now, was, lo);
      }
      return;
    }
    var t := s.tasks[taskId];
    if !ShouldExport(t) {
      return;
    }
    var ups, downs := CollectIds(t, bindings, link, listed, action);
    ups := ups - downs;
    EnqueueUpserts(table, taskId, action, ups, now, was, lo);
    EnqueueRemoves(table, taskId, downs, now, was, lo);
    if ups == {} && downs == {} && action == DELETED {
      EnqueueByExportedLink(table, s, taskId, now, was, lo);
    }
  }

  method EnqueueByExportedLink(table: OutboxTable, s: Store, taskId: int, now: int, ghost was: Rows, ghost lo: int)
    requires table.Valid() && OnlyAdds(was, lo, table.rows, table.nextId, now)
    modifies table
    ensures table.Valid() && OnlyAdds(was, lo, table.rows, table.nextId, now)
    ensures Added(table.rows, lo, table.nextId) ==
            Added(old(table.rows), lo, old(table.nextId)) + ExportedLinkRows(s, taskId)
  {
    var newest := NewestLink(s, taskId);
    if newest.Some? && newest.value in s.links && s.links[newest.value].origin == Exported {
      EnqueueAsked(table, RemoveByLink(taskId, newest.value), now, was, lo);
    }
  }
}
