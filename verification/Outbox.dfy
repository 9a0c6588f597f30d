/** The sync outbox: the table its repository updates in place, and one pass of ProcessOutbox. */
module Outbox {
  import opened Text

  // ---------- backoff ----------

  const MAX_ATTEMPTS := 8
  const BACKOFF_MINUTES: seq<int> := [1, 5, 30, 120]

  // OutboxBackoff, in minutes, for a 1-based attempt count
  function Backoff(attempts: int): int {
    if attempts <= 0 then BACKOFF_MINUTES[0]
    else if attempts - 1 >= |BACKOFF_MINUTES| then BACKOFF_MINUTES[|BACKOFF_MINUTES| - 1]
    else BACKOFF_MINUTES[attempts - 1]
  }

  // What the first n failures have to wait for.
  function BackoffTotal(n: nat): int {
    if n == 0 then 0 else BackoffTotal(n - 1) + Backoff(n)
  }

  // A row that always fails waits 1 + 5 + 30 + 4 * 120 minutes before its last try.
  lemma WholeBackoff()
    ensures BackoffTotal(MAX_ATTEMPTS - 1) == 516
  {
    assert BackoffTotal(4) == 156;
    assert BackoffTotal(7) == BackoffTotal(6) + 120;
  }

  // ---------- rows ----------

  datatype Status = Pending | Processing | Done | Failed

  datatype Payload = Payload(taskId: int, bindingId: int, linkId: int, action: string)

  datatype Row = Row(kind: string, payload: Payload, attempts: int, nextRetryAt: int, lastError: string, status: Status)

  type Rows = map<int, Row>

  predicate Due(rows: Rows, id: int, now: int) {
    id in rows && rows[id].status == Pending && rows[id].nextRetryAt <= now
  }

  function DueIds(rows: Rows, now: int): set<int> {
    set id | id in rows && Due(rows, id, now)
  }

  function EffectiveLimit(limit: int): (n: int)
    ensures n >= 1
  {
    if limit <= 0 then 50 else limit
  }

  predicate Ascending(ids: seq<int>) {
    forall i, j :: 0 <= i < j < |ids| ==> ids[i] < ids[j]
  }

  // ids are the first `limit` elements of due, in ascending order.
  predicate FirstOf(due: set<int>, limit: nat, ids: seq<int>) {
    && Ascending(ids) && |ids| <= limit
    && (forall i :: 0 <= i < |ids| ==> ids[i] in due)
    && (forall id :: id in due && id !in ids ==> |ids| == limit && forall i :: 0 <= i < |ids| ==> ids[i] < id)
  }

  function Claimed(rows: Rows, ids: seq<int>): Rows {
    map id | id in rows :: if id in ids then rows[id].(status := Processing) else rows[id]
  }

  // updateStatus
  function WithStatus(rows: Rows, id: int, status: Status, error: string): Rows {
    if id !in rows then rows
    else rows[id := rows[id].(status := status, lastError := if error != "" then error else rows[id].lastError)]
  }

  // MarkRetry
  function Retried(rows: Rows, id: int, attempts: int, nextRetryAt: int, error: string): Rows {
    if id !in rows then rows
    else rows[id := rows[id].(status := Pending, attempts := attempts, nextRetryAt := nextRetryAt, lastError := error)]
  }

  // What ProcessOutbox writes after executing an item it claimed with this attempt count.
  function Marked(rows: Rows, id: int, attempts: int, error: Option<string>, now: int): Rows {
    match error
    case None => WithStatus(rows, id, Done, "")
    case Some(e) =>
      if attempts + 1 >= MAX_ATTEMPTS then WithStatus(rows, id, Failed, e)
      else Retried(rows, id, attempts + 1, now + Backoff(attempts + 1), e)
  }

  // A failure puts the row back with one more attempt, to be tried after 1, 5, 30, and from then on
  // 120 minutes; the eighth is the last.
  predicate PutBack(was: Row, row: Row, attempts: int, error: string, now: int) {
    && row.kind == was.kind && row.payload == was.payload
    && (attempts < 7 ==>
          && row.status == Pending && row.attempts == attempts + 1 && row.lastError == error
          && row.nextRetryAt == now + if attempts <= 0 then 1 else if attempts == 1 then 5
                                      else if attempts == 2 then 30 else 120)
    && (attempts >= 7 ==>
          && row.status == Failed && row.attempts == was.attempts && row.nextRetryAt == was.nextRetryAt
          && row.lastError == if error != "" then error else was.lastError)
  }

  lemma FailureWaits(rows: Rows, id: int, attempts: int, error: string, now: int)
    requires id in rows
    ensures PutBack(rows[id], Marked(rows, id, attempts, Some(error), now)[id], attempts, error, now)
    ensures Marked(rows, id, attempts, None, now)[id] == rows[id].(status := Done)
  {
    var e := Some(error);
    assert Backoff(attempts + 1) == if attempts <= 0 then 1 else if attempts == 1 then 5
                                    else if attempts == 2 then 30 else 120;
    assert Marked(rows, id, attempts, e, now).Keys == rows.Keys;
  }

  function Fresh(kind: string, payload: Payload, now: int): Row {
    Row(kind, payload, 0, now, "", Pending)
  }

  // A new row is due from the moment it is enqueued, as one that never failed.
  lemma FreshIsDue(rows: Rows, id: int, kind: string, payload: Payload, now: int, t: int)
    ensures Due(rows[id := Fresh(kind, payload, now)], id, t) <==> now <= t
    ensures Fresh(kind, payload, now).attempts == 0 && Fresh(kind, payload, now).kind == kind
    ensures Fresh(kind, payload, now).payload == payload
  {
  }

  // ---------- the smallest element of a set ----------

  predicate IsLeast(s: set<int>, x: int) {
    x in s && forall y :: y in s ==> x <= y
  }

  lemma {:induction false} HasLeast(s: set<int>) returns (x: int)
    requires s != {}
    ensures IsLeast(s, x)
    decreases |s|
  {
    assert (forall y :: y !in s) ==> s == {};
    var e :| e in s;
    x := e;
    var rest := s - {e};
    if rest != {} {
      var y := HasLeast(rest);
      assert forall z :: z in s ==> z == e || z in rest;
      if y < e { x := y; }
    } else {
      assert s == {e};
    }
  }

  // ---------- which rows a claim takes ----------

  // The pending rows before row id whose time has come.
  function DueBefore(rows: Rows, now: int, id: int): set<int> {
    set j | j in rows && j < id && rows[j].status == Pending && rows[j].nextRetryAt <= now
  }

  lemma EarlierAreTaken(rows: Rows, now: int, limit: nat, ids: seq<int>, i: nat)
    requires FirstOf(DueIds(rows, now), limit, ids) && i < |ids|
    ensures DueBefore(rows, now, ids[i]) == SetOf(ids[..i])
  {
    forall j | j in DueBefore(rows, now, ids[i]) ensures j in SetOf(ids[..i]) {
      assert j in DueIds(rows, now);
      var k :| 0 <= k < |ids| && ids[k] == j;
      assert ids[..i][k] == j;
    }
    forall j | j in SetOf(ids[..i]) ensures j in DueBefore(rows, now, ids[i]) {
      var k :| 0 <= k < i && ids[k] == j;
      assert ids[k] in DueIds(rows, now);
    }
  }

  lemma {:induction false} AscendingSize(ids: seq<int>)
    requires Ascending(ids)
    ensures |SetOf(ids)| == |ids|
    decreases |ids|
  {
    if ids != [] {
      var n := |ids| - 1;
      AscendingSize(ids[..n]);
      assert ids == ids[..n] + [ids[n]];
      SetOfAppend(ids[..n], [ids[n]]);
      assert SetOf([ids[n]]) == {ids[n]};
      assert ids[n] !in SetOf(ids[..n]);
    } else {
      assert SetOf(ids) == {};
    }
  }

  lemma AllAreBefore(rows: Rows, now: int, limit: nat, ids: seq<int>, id: int)
    requires FirstOf(DueIds(rows, now), limit, ids) && id in DueIds(rows, now) && id !in ids
    ensures |DueBefore(rows, now, id)| >= limit
  {
    forall j | j in SetOf(ids) ensures j in DueBefore(rows, now, id) {
      var k :| 0 <= k < |ids| && ids[k] == j;
      assert ids[k] in DueIds(rows, now);
    }
    AscendingSize(ids);
    SubsetSize(SetOf(ids), DueBefore(rows, now, id));
  }

  lemma SubsetSize(a: set<int>, b: set<int>)
    requires a <= b
    ensures |a| <= |b|
  {
    assert b == a + (b - a);
  }

  // A claim takes exactly the pending rows whose time has come with fewer than limit of them
  // before, 50 when no limit is given.
  lemma ClaimedExactly(rows: Rows, now: int, limit: int, ids: seq<int>, id: int)
    requires FirstOf(DueIds(rows, now), EffectiveLimit(limit), ids)
    ensures id in ids <==>
            && id in rows && rows[id].status == Pending && rows[id].nextRetryAt <= now
            && |DueBefore(rows, now, id)| < if limit >= 1 then limit else 50
  {
    if i :| 0 <= i < |ids| && ids[i] == id {
      assert id in DueIds(rows, now);
      EarlierAreTaken(rows, now, EffectiveLimit(limit), ids, i);
      AscendingSize(ids[..i]);
    } else if id in DueIds(rows, now) {
      AllAreBefore(rows, now, EffectiveLimit(limit), ids, id);
    }
  }

  method Least(s: set<int>) returns (x: int)
    requires s != {}
    ensures IsLeast(s, x)
  {
    ghost var least := HasLeast(s);
    x :| x in s && IsLeast(s, x);
  }

  // ---------- the repository ----------

  type Executor = (string, Payload) -> Option<string>

  // The rows after the first n items have been executed and marked.
  function ProcessedRows(was: Rows, rows: Rows, items: seq<int>, run: Executor, now: int, n: nat): Rows
    requires n <= |items| && forall i :: 0 <= i < |items| ==> items[i] in was
  {
    if n == 0 then rows
    else
      var id := items[n - 1];
      Marked(ProcessedRows(was, rows, items, run, now, n - 1), id, was[id].attempts,
             run(was[id].kind, was[id].payload), now)
  }

  lemma MarkKeepsOthers(rows: Rows, id: int, attempts: int, error: Option<string>, now: int)
    ensures Marked(rows, id, attempts, error, now).Keys == rows.Keys
    ensures forall j :: j in rows && j != id ==> Marked(rows, id, attempts, error, now)[j] == rows[j]
  {
  }

  lemma ProcessedNext(was: Rows, rows: Rows, items: seq<int>, run: Executor, now: int, n: nat)
    requires n < |items| && forall i :: 0 <= i < |items| ==> items[i] in was
    ensures ProcessedRows(was, rows, items, run, now, n + 1) ==
            Marked(ProcessedRows(was, rows, items, run, now, n), items[n], was[items[n]].attempts,
                   run(was[items[n]].kind, was[items[n]].payload), now)
  {
  }

  // The items from the i-th on are as they were claimed.
  predicate StillClaimed(rows: Rows, start: Rows, items: seq<int>, i: nat) {
    forall j :: i <= j < |items| ==> items[j] in rows && items[j] in start && rows[items[j]] == start[items[j]]
  }

  lemma OthersStillClaimed(
      rows: Rows, start: Rows, items: seq<int>, i: nat, attempts: int, error: Option<string>, now: int)
    requires i < |items| && Ascending(items) && StillClaimed(rows, start, items, i)
    ensures StillClaimed(Marked(rows, items[i], attempts, error, now), start, items, i + 1)
    ensures Marked(rows, items[i], attempts, error, now).Keys == rows.Keys
  {
    MarkKeepsOthers(rows, items[i], attempts, error, now);
  }

  class OutboxTable {
    var rows: Rows
    var nextId: int

    constructor ()
      ensures rows == map[] && nextId == 1 && Valid()
    {
      rows, nextId := map[], 1;
    }

    // Ids are handed out in order and rows are never removed.
    ghost predicate Valid()
      reads this
    {
      nextId >= 1 && forall id :: id in rows <==> 1 <= id < nextId
    }

    method Enqueue(kind: string, payload: Payload, now: int) returns (id: int)
      requires Valid()
      modifies this
      ensures Valid() && id !in old(rows) && id == old(nextId) && nextId == old(nextId) + 1
      ensures rows == old(rows)[id := Fresh(kind, payload, now)]
    {
      id := nextId;
      rows := rows[id := Fresh(kind, payload, now)];
      nextId := nextId + 1;
    }

    method ClaimDue(limit: int, now: int) returns (items: seq<int>)
      requires Valid()
      modifies this`rows
      ensures Valid()
      ensures FirstOf(DueIds(old(rows), now), EffectiveLimit(limit), items)
      ensures rows == Claimed(old(rows), items)
    {
      var left := DueIds(rows, now);
      items := [];
      while |items| < EffectiveLimit(limit) && left != {}
        invariant rows == old(rows) && Ascending(items) && |items| <= EffectiveLimit(limit)
        invariant left <= DueIds(rows, now)
        invariant forall id :: id in DueIds(rows, now) <==> id in left || id in items
        invariant forall i, id :: 0 <= i < |items| && id in left ==> items[i] < id
        decreases left
      {
        var id := Least(left);
        items := items + [id];
        left := left - {id};
      }
      rows := Claimed(rows, items);
    }

    method MarkDone(id: int) returns (ok: bool)
      requires Valid()
      modifies this`rows
      ensures Valid() && ok == (id in old(rows))
      ensures rows == WithStatus(old(rows), id, Done, "")
    {
      ok := UpdateStatus(id, Done, "");
    }

    method MarkRetry(id: int, attempts: int, nextRetryAt: int, error: string) returns (ok: bool)
      requires Valid()
      modifies this`rows
      ensures Valid() && ok == (id in old(rows))
      ensures rows == Retried(old(rows), id, attempts, nextRetryAt, error)
    {
      ok := id in rows;
      if ok {
        rows := rows[id := rows[id].(status := Pending, attempts := attempts, nextRetryAt := nextRetryAt,
                                     lastError := error)];
      }
    }

    method MarkFailed(id: int, error: string) returns (ok: bool)
      requires Valid()
      modifies this`rows
      ensures Valid() && ok == (id in old(rows))
      ensures rows == WithStatus(old(rows), id, Failed, error)
    {
      ok := UpdateStatus(id, Failed, error);
    }

    method UpdateStatus(id: int, status: Status, error: string) returns (ok: bool)
      requires Valid()
      modifies this`rows
      ensures Valid() && ok == (id in old(rows))
      ensures rows == WithStatus(old(rows), id, status, error)
    {
      ok := id in rows;
      if ok {
        var row := rows[id].(status := status);
        if error != "" {
          row := row.(lastError := error);
        }
        rows := rows[id := row];
      }
    }

    // The tail of one iteration of ProcessOutbox: mark the item by how it went.
    method Mark(id: int, attempts: int, error: Option<string>, now: int)
      requires Valid()
      modifies this`rows
      ensures Valid() && rows == Marked(old(rows), id, attempts, error, now)
    {
      if error.Some? {
        var next := attempts + 1;
        if next >= MAX_ATTEMPTS {
          var _ := MarkFailed(id, error.value);
        } else {
          var _ := MarkRetry(id, next, now + Backoff(next), error.value);
        }
      } else {
        var _ := MarkDone(id);
      }
    }

    // ProcessOutbox by one worker; run stands for processOutboxItem.
    method ProcessOutbox(run: Executor, now: int) returns (items: seq<int>)
      requires Valid()
      modifies this`rows
      ensures Valid()
      ensures FirstOf(DueIds(old(rows), now), 50, items)
      ensures forall i :: 0 <= i < |items| ==> items[i] in old(rows)
      ensures rows == ProcessedRows(old(rows), Claimed(old(rows), items), items, run, now, |items|)
    {
      ghost var was := rows;
      items := ClaimDue(50, now);
      ghost var start := rows;
      var i := 0;
      while i < |items|
        invariant 0 <= i <= |items| && Valid()
        invariant rows.Keys == was.Keys
        invariant rows == ProcessedRows(was, start, items, run, now, i)
        invariant StillClaimed(rows, start, items, i)
      {
        var id := items[i];
        var item := rows[id];
        var error := run(item.kind, item.payload);
        assert item == was[id].(status := Processing);
        ProcessedNext(was, start, items, run, now, i);
        OthersStillClaimed(rows, start, items, i, item.attempts, error, now);
        Mark(id, item.attempts, error, now);
        i := i + 1;
      }
    }
  }
}
