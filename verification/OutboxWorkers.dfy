/** Any number of workers on one outbox table: claiming is a transaction of two steps (select and
    lock, then mark and commit), executions and marks interleave, marks can be lost. */
module OutboxWorkers {
  import opened Text
  import opened Outbox

  // A claimed row and the attempt count it was claimed with.
  datatype Item = Item(id: int, attempts: int)

  datatype Worker = Idle | Selecting(ids: seq<int>) | Working(items: seq<Item>)

  // What happened to a row: when it was enqueued, its failed executions, its backoff so far.
  datatype History = History(born: int, failures: int, waited: int)

  datatype State = State(rows: Rows, nextId: int, workers: map<int, Worker>, clock: int, history: map<int, History>)

  datatype Step =
    | Tick(minutes: nat)
    | Enqueue(kind: string, payload: Payload)
    | Select(w: int, limit: int, ids: seq<int>)
    | Commit(w: int)
    | Abort(w: int)
    | Finish(w: int, error: Option<string>)
    | LoseMark(w: int, error: Option<string>)
    | Crash(w: int)

  // ---------- steps ----------

  predicate Locks(w: Worker, id: int) { w.Selecting? && id in w.ids }

  predicate Locked(s: State, id: int) {
    exists w :: w in s.workers && Locks(s.workers[w], id)
  }

  // FOR UPDATE SKIP LOCKED: the due rows nobody else is selecting.
  function Claimable(s: State): set<int> {
    set id | id in s.rows && Due(s.rows, id, s.clock) && !Locked(s, id)
  }

  predicate Can(s: State, step: Step) {
    match step
    case Tick(_) => true
    case Enqueue(_, _) => true
    case Select(w, limit, ids) =>
      w in s.workers && s.workers[w].Idle? && ids != [] && FirstOf(Claimable(s), EffectiveLimit(limit), ids)
    case Commit(w) => w in s.workers && s.workers[w].Selecting?
    case Abort(w) => w in s.workers && s.workers[w].Selecting?
    case Finish(w, _) => w in s.workers && s.workers[w].Working? && s.workers[w].items != []
    case LoseMark(w, _) => w in s.workers && s.workers[w].Working? && s.workers[w].items != []
    case Crash(w) => w in s.workers && s.workers[w].Working?
  }

  function ItemsOf(rows: Rows, ids: seq<int>): seq<Item> {
    seq(|ids|, i requires 0 <= i < |ids| => Item(ids[i], if ids[i] in rows then rows[ids[i]].attempts else 0))
  }

  function Rest(items: seq<Item>): Worker
    requires items != []
  {
    if |items| == 1 then Idle else Working(items[1..])
  }

  function Recorded(history: map<int, History>, item: Item, error: Option<string>, marked: bool): map<int, History> {
    if error.None? || item.id !in history then history
    else
      var h := history[item.id];
      var wait := if marked && item.attempts + 1 < MAX_ATTEMPTS then Backoff(item.attempts + 1) else 0;
      history[item.id := History(h.born, h.failures + 1, h.waited + wait)]
  }

  function Do(s: State, step: Step): State
    requires Can(s, step)
  {
    match step
    case Tick(minutes) => s.(clock := s.clock + minutes)
    case Enqueue(kind, payload) =>
      s.(rows := s.rows[s.nextId := Fresh(kind, payload, s.clock)], nextId := s.nextId + 1,
         history := s.history[s.nextId := History(s.clock, 0, 0)])
    case Select(w, _, ids) => s.(workers := s.workers[w := Selecting(ids)])
    case Commit(w) =>
      var ids := s.workers[w].ids;
      s.(rows := Claimed(s.rows, ids), workers := s.workers[w := Working(ItemsOf(s.rows, ids))])
    case Abort(w) => s.(workers := s.workers[w := Idle])
    case Finish(w, error) =>
      var item := s.workers[w].items[0];
      s.(rows := Marked(s.rows, item.id, item.attempts, error, s.clock),
         history := Recorded(s.history, item, error, true),
         workers := s.workers[w := Rest(s.workers[w].items)])
    case LoseMark(w, error) =>
      var item := s.workers[w].items[0];
      s.(history := Recorded(s.history, item, error, false), workers := s.workers[w := Rest(s.workers[w].items)])
    case Crash(w) => s.(workers := s.workers[w := Idle])
  }

  predicate CanRun(s: State, steps: seq<Step>)
    decreases |steps|
  {
    steps == [] || (Can(s, steps[0]) && CanRun(Do(s, steps[0]), steps[1..]))
  }

  function Run(s: State, steps: seq<Step>): State
    requires CanRun(s, steps)
    decreases |steps|
  {
    if steps == [] then s else Run(Do(s, steps[0]), steps[1..])
  }

  predicate Initial(s: State) {
    s.rows == map[] && s.history == map[] && s.nextId == 1 && forall w :: w in s.workers ==> s.workers[w].Idle?
  }

  // ---------- the invariant ----------

  predicate RowOk(row: Row, h: History, clock: int) {
    && 0 <= row.attempts <= MAX_ATTEMPTS - 1
    && h.waited == BackoffTotal(row.attempts) && h.born <= clock
    && match row.status
       case Pending => h.failures == row.attempts && row.nextRetryAt >= h.born + h.waited
       case Processing => h.failures == row.attempts || h.failures == row.attempts + 1
       case Done => h.failures == row.attempts
       case Failed => h.failures == MAX_ATTEMPTS && row.attempts == MAX_ATTEMPTS - 1 && clock >= h.born + h.waited
  }

  predicate RowsOk(s: State) {
    && s.nextId >= 1 && s.rows.Keys == s.history.Keys
    && (forall id :: id in s.rows ==> 1 <= id < s.nextId)
    && (forall id :: 1 <= id < s.nextId ==> id in s.rows)
    && (forall id :: id in s.rows ==> RowOk(s.rows[id], s.history[id], s.clock))
  }

  // An item in the hands of a worker: in processing, with the attempt count it was claimed with.
  predicate HeldOk(s: State, item: Item) {
    && item.id in s.rows && item.id in s.history
    && s.rows[item.id].status == Processing && s.rows[item.id].attempts == item.attempts
    && s.history[item.id].failures == item.attempts
    && s.clock >= s.history[item.id].born + s.history[item.id].waited
  }

  predicate WorkerOk(s: State, w: Worker) {
    match w
    case Idle => true
    case Selecting(ids) => ids != [] && Ascending(ids) && forall i :: 0 <= i < |ids| ==> Due(s.rows, ids[i], s.clock)
    case Working(items) =>
      && items != [] && (forall i :: 0 <= i < |items| ==> HeldOk(s, items[i]))
      && (forall i, j :: 0 <= i < j < |items| ==> items[i].id < items[j].id)
  }

  predicate Claims(w: Worker, id: int) {
    match w
    case Idle => false
    case Selecting(ids) => id in ids
    case Working(items) => exists i :: 0 <= i < |items| && items[i].id == id
  }

  predicate Exclusive(s: State, v: int, w: int, id: int)
    requires v in s.workers && w in s.workers
  {
    Claims(s.workers[v], id) && Claims(s.workers[w], id) ==> v == w
  }

  ghost predicate Inv(s: State) {
    && RowsOk(s)
    && (forall w :: w in s.workers ==> WorkerOk(s, s.workers[w]))
    && (forall v, w, id :: v in s.workers && w in s.workers ==> Exclusive(s, v, w, id))
  }

  lemma InitialInv(s: State)
    requires Initial(s)
    ensures Inv(s)
  {
  }

  // A worker's claims are on rows that are pending or in processing.
  lemma ClaimsKnown(s: State, w: Worker, id: int)
    requires WorkerOk(s, w) && Claims(w, id)
    ensures id in s.rows && (s.rows[id].status == Pending || s.rows[id].status == Processing)
    ensures s.rows[id].status == Pending <==> w.Selecting?
  {
  }

  lemma PendingClaimLocks(s: State, w: Worker, id: int)
    requires WorkerOk(s, w) && id in s.rows && s.rows[id].status == Pending
    ensures Claims(w, id) ==> Locks(w, id)
  {
    if Claims(w, id) { ClaimsKnown(s, w, id); }
  }

  // The rows a worker claims are untouched by a change elsewhere.
  lemma WorkerKept(s: State, t: State, w: Worker)
    requires WorkerOk(s, w) && t.clock >= s.clock
    requires forall id :: Claims(w, id) && id in s.rows && id in s.history ==>
               id in t.rows && id in t.history && t.rows[id] == s.rows[id] && t.history[id] == s.history[id]
    requires s.rows.Keys <= s.history.Keys
    ensures WorkerOk(t, w)
  {
    match w
    case Idle =>
    case Selecting(ids) =>
      forall i | 0 <= i < |ids| ensures Due(t.rows, ids[i], t.clock) { assert Claims(w, ids[i]); }
    case Working(items) =>
      forall i | 0 <= i < |items| ensures HeldOk(t, items[i]) { assert Claims(w, items[i].id); }
  }

  lemma TickKeeps(s: State, minutes: nat)
    requires Inv(s)
    ensures Inv(Do(s, Tick(minutes)))
  {
    var t := Do(s, Tick(minutes));
    forall w | w in t.workers ensures WorkerOk(t, t.workers[w]) { WorkerKept(s, t, s.workers[w]); }
    forall v, w, id | v in t.workers && w in t.workers ensures Exclusive(t, v, w, id) {
      assert Exclusive(s, v, w, id);
    }
  }

  lemma EnqueueKeeps(s: State, kind: string, payload: Payload)
    requires Inv(s)
    ensures Inv(Do(s, Enqueue(kind, payload)))
  {
    var t := Do(s, Enqueue(kind, payload));
    forall w | w in t.workers ensures WorkerOk(t, t.workers[w]) { WorkerKept(s, t, s.workers[w]); }
    forall v, w, id | v in t.workers && w in t.workers ensures Exclusive(t, v, w, id) {
      assert Exclusive(s, v, w, id);
    }
  }

  // A worker that gives up its claims, or part of them, disturbs no other.
  lemma FewerClaims(s: State, t: State, w: int)
    requires Inv(s) && w in s.workers && RowsOk(t) && t.clock == s.clock
    requires t.workers.Keys == s.workers.Keys && forall v :: v in s.workers && v != w ==> t.workers[v] == s.workers[v]
    requires forall id :: Claims(t.workers[w], id) ==> Claims(s.workers[w], id)
    requires WorkerOk(t, t.workers[w])
    requires forall id :: id in s.rows && !Claims(s.workers[w], id) ==>
               id in t.rows && t.rows[id] == s.rows[id] && t.history[id] == s.history[id]
    ensures Inv(t)
  {
    forall v | v in t.workers ensures WorkerOk(t, t.workers[v]) {
      if v != w {
        forall id | Claims(s.workers[v], id) ensures !Claims(s.workers[w], id) { assert Exclusive(s, v, w, id); }
        WorkerKept(s, t, s.workers[v]);
      }
    }
    forall u, v, id | u in t.workers && v in t.workers ensures Exclusive(t, u, v, id) {
      assert Exclusive(s, u, v, id);
    }
  }

  lemma SelectKeeps(s: State, w: int, limit: int, ids: seq<int>)
    requires Inv(s) && Can(s, Select(w, limit, ids))
    ensures Inv(Do(s, Select(w, limit, ids)))
  {
    var t := Do(s, Select(w, limit, ids));
    forall v | v in t.workers ensures WorkerOk(t, t.workers[v]) {
      if v != w { WorkerKept(s, t, s.workers[v]); }
    }
    forall v, id | v in s.workers && id in ids ensures !Claims(s.workers[v], id) {
      assert id in Claimable(s);
      PendingClaimLocks(s, s.workers[v], id);
    }
    forall u, v, id | u in t.workers && v in t.workers ensures Exclusive(t, u, v, id) {
      assert Exclusive(s, u, v, id);
    }
  }

  lemma CommitKeeps(s: State, w: int)
    requires Inv(s) && Can(s, Commit(w))
    ensures Inv(Do(s, Commit(w)))
  {
    var t := Do(s, Commit(w));
    var ids := s.workers[w].ids;
    assert WorkerOk(s, s.workers[w]);
    forall i | 0 <= i < |ids| ensures HeldOk(t, t.workers[w].items[i]) {
      assert Due(s.rows, ids[i], s.clock) && RowOk(s.rows[ids[i]], s.history[ids[i]], s.clock);
    }
    forall id | Claims(t.workers[w], id) ensures Claims(s.workers[w], id) {
      var i :| 0 <= i < |t.workers[w].items| && t.workers[w].items[i].id == id;
      assert ids[i] == id;
    }
    FewerClaims(s, t, w);
  }

  // The item in hand after its mark: its row satisfies the row invariant again.
  lemma MarkedRowOk(row: Row, h: History, item: Item, error: Option<string>, clock: int)
    requires RowOk(row, h, clock) && row.status == Processing
    requires row.attempts == item.attempts == h.failures && clock >= h.born + h.waited
    ensures RowOk(Marked(map[item.id := row], item.id, item.attempts, error, clock)[item.id],
                  Recorded(map[item.id := h], item, error, true)[item.id], clock)
  {
    assert BackoffTotal(item.attempts + 1) == BackoffTotal(item.attempts) + Backoff(item.attempts + 1);
  }

  lemma OthersHeld(s: State, t: State, items: seq<Item>)
    requires items != [] && WorkerOk(s, Working(items)) && t.clock == s.clock
    requires forall id :: id in s.rows && id in s.history && id != items[0].id ==>
               id in t.rows && id in t.history && t.rows[id] == s.rows[id] && t.history[id] == s.history[id]
    ensures WorkerOk(t, Rest(items))
    ensures forall id :: Claims(Rest(items), id) ==> Claims(Working(items), id)
  {
    if |items| > 1 {
      forall i | 0 <= i < |items[1..]| ensures HeldOk(t, items[1..][i]) {
        assert items[1..][i] == items[i + 1] && HeldOk(s, items[i + 1]) && items[0].id < items[i + 1].id;
      }
      assert forall i :: 0 <= i < |items[1..]| ==> items[1..][i] == items[i + 1];
    }
  }

  lemma FinishKeeps(s: State, w: int, error: Option<string>)
    requires Inv(s) && Can(s, Finish(w, error))
    ensures Inv(Do(s, Finish(w, error)))
  {
    var t := Do(s, Finish(w, error));
    var items := s.workers[w].items;
    var id := items[0].id;
    assert WorkerOk(s, s.workers[w]) && HeldOk(s, items[0]);
    assert Claims(s.workers[w], id);
    MarkedRowOk(s.rows[id], s.history[id], items[0], error, s.clock);
    assert RowOk(t.rows[id], t.history[id], t.clock);
    OthersHeld(s, t, items);
    FewerClaims(s, t, w);
  }

  lemma LoseMarkKeeps(s: State, w: int, error: Option<string>)
    requires Inv(s) && Can(s, LoseMark(w, error))
    ensures Inv(Do(s, LoseMark(w, error)))
  {
    var t := Do(s, LoseMark(w, error));
    var items := s.workers[w].items;
    assert WorkerOk(s, s.workers[w]) && HeldOk(s, items[0]);
    assert Claims(s.workers[w], items[0].id);
    OthersHeld(s, t, items);
    FewerClaims(s, t, w);
  }

  lemma StepKeepsInv(s: State, step: Step)
    requires Inv(s) && Can(s, step)
    ensures Inv(Do(s, step))
  {
    match step
    case Tick(minutes) => TickKeeps(s, minutes);
    case Enqueue(kind, payload) => EnqueueKeeps(s, kind, payload);
    case Select(w, limit, ids) => SelectKeeps(s, w, limit, ids);
    case Commit(w) => CommitKeeps(s, w);
    case Abort(w) => FewerClaims(s, Do(s, step), w);
    case Finish(w, error) => FinishKeeps(s, w, error);
    case LoseMark(w, error) => LoseMarkKeeps(s, w, error);
    case Crash(w) => FewerClaims(s, Do(s, step), w);
  }

  // ---------- every run ----------

  lemma {:induction false} RunKeepsInv(s: State, steps: seq<Step>)
    requires Inv(s) && CanRun(s, steps)
    ensures Inv(Run(s, steps))
    decreases |steps|
  {
    if steps != [] {
      StepKeepsInv(s, steps[0]);
      RunKeepsInv(Do(s, steps[0]), steps[1..]);
    }
  }

  predicate Holds(s: State, w: int, id: int) {
    w in s.workers && s.workers[w].Working? && Claims(s.workers[w], id)
  }

  // In every reachable state a row is held by at most one worker, and only while it is in
  // processing; a pending row has failed as often as it says, at most 7 times; a failed row has
  // failed exactly 8 times after 516 minutes of backoff, and still says 7.
  lemma OutboxIsSafe(s0: State, steps: seq<Step>, id: int)
    requires Initial(s0) && CanRun(s0, steps)
    ensures var s := Run(s0, steps);
            && (forall v, w :: Holds(s, v, id) && Holds(s, w, id) ==> v == w)
            && (forall w :: Holds(s, w, id) ==> id in s.rows && s.rows[id].status == Processing)
            && (id in s.rows <==> 1 <= id < s.nextId) && (id in s.rows <==> id in s.history)
            && (id in s.rows ==>
                  match s.rows[id].status
                  case Pending => s.rows[id].attempts == s.history[id].failures <= 7
                  case Failed =>
                    s.rows[id].attempts == 7 && s.history[id].failures == 8 && s.history[id].waited == 516
                                 && s.clock >= s.history[id].born + 516
                  case _ => s.rows[id].attempts <= 7)
  {
    InitialInv(s0);
    RunKeepsInv(s0, steps);
    var s := Run(s0, steps);
    forall v, w | Holds(s, v, id) && Holds(s, w, id) ensures v == w { assert Exclusive(s, v, w, id); }
    forall w | Holds(s, w, id) ensures id in s.rows && s.rows[id].status == Processing {
      ClaimsKnown(s, s.workers[w], id);
    }
    if id in s.rows {
      assert RowOk(s.rows[id], s.history[id], s.clock);
      WholeBackoff();
    }
  }

  predicate Settled(row: Row) { row.status == Done || row.status == Failed }

  // What a step may do to a row that is already there.
  predicate RowFollows(r: Row, q: Row) {
    && q.kind == r.kind && q.payload == r.payload && q.attempts >= r.attempts
    && (Settled(r) ==> q == r)
  }

  predicate RowsFollow(rows: Rows, next: Rows) {
    forall id :: id in rows ==> id in next && RowFollows(rows[id], next[id])
  }

  lemma StepFollows(s: State, step: Step)
    requires Inv(s) && Can(s, step)
    ensures RowsFollow(s.rows, Do(s, step).rows)
  {
    match step
    case Commit(w) => assert WorkerOk(s, s.workers[w]);
    case Finish(w, _) => assert WorkerOk(s, s.workers[w]) && HeldOk(s, s.workers[w].items[0]);
    case Enqueue(_, _) => assert s.nextId !in s.rows;
    case _ =>
  }

  // No row is ever lost, its kind and payload never change, and done and failed are final.
  lemma {:induction false} RowsAreNeverLost(s: State, steps: seq<Step>)
    requires Inv(s) && CanRun(s, steps)
    ensures RowsFollow(s.rows, Run(s, steps).rows)
    decreases |steps|
  {
    if steps != [] {
      StepFollows(s, steps[0]);
      StepKeepsInv(s, steps[0]);
      RowsAreNeverLost(Do(s, steps[0]), steps[1..]);
    }
  }

  // ---------- draining ----------

  // Two units for every try a row still has, one of them spent on claiming it.
  function Weight(row: Row): int {
    match row.status
    case Pending => 2 * (MAX_ATTEMPTS - row.attempts)
    case Processing => 2 * (MAX_ATTEMPTS - row.attempts) - 1
    case _ => 0
  }

  function Measure(rows: Rows, n: int): int
    decreases n
  {
    if n <= 0 then 0 else Measure(rows, n - 1) + if n in rows then Weight(rows[n]) else 0
  }

  function Open(s: State): int { Measure(s.rows, s.nextId - 1) }

  predicate Lighter(rows: Rows, next: Rows) {
    forall id :: id in rows ==> id in next && Weight(next[id]) <= Weight(rows[id])
  }

  lemma {:induction false} MeasureFalls(rows: Rows, next: Rows, n: int, id: int)
    requires Lighter(rows, next) && rows.Keys == next.Keys
    ensures Measure(next, n) <= Measure(rows, n)
    ensures 1 <= id <= n && id in rows && Weight(next[id]) < Weight(rows[id]) ==> Measure(next, n) < Measure(rows, n)
    decreases n
  {
    if n > 0 { MeasureFalls(rows, next, n - 1, id); }
  }

  lemma {:induction false} MeasureUnaffected(rows: Rows, id: int, row: Row, n: int)
    requires n < id
    ensures Measure(rows[id := row], n) == Measure(rows, n)
    decreases n
  {
    if n > 0 { MeasureUnaffected(rows, id, row, n - 1); }
  }

  lemma {:induction false} MeasureNatural(s: State, n: int)
    requires Inv(s)
    ensures Measure(s.rows, n) >= 0
    decreases n
  {
    if n > 0 {
      MeasureNatural(s, n - 1);
      if n in s.rows { assert RowOk(s.rows[n], s.history[n], s.clock); }
    }
  }

  // A claim that commits or a mark that is written.
  predicate Progress(step: Step) { step.Commit? || step.Finish? }

  function Spent(step: Step): int { if Progress(step) then 1 else 0 }

  function Added(step: Step): int { if step.Enqueue? then 2 * MAX_ATTEMPTS else 0 }

  lemma CommitSpends(s: State, w: int)
    requires Inv(s) && Can(s, Commit(w))
    ensures Open(Do(s, Commit(w))) < Open(s)
  {
    var t := Do(s, Commit(w));
    var ids := s.workers[w].ids;
    assert WorkerOk(s, s.workers[w]) && Due(s.rows, ids[0], s.clock);
    forall id | id in s.rows ensures Weight(t.rows[id]) <= Weight(s.rows[id]) {
      if id in ids { assert Due(s.rows, id, s.clock); }
    }
    MeasureFalls(s.rows, t.rows, s.nextId - 1, ids[0]);
  }

  lemma FinishSpends(s: State, w: int, error: Option<string>)
    requires Inv(s) && Can(s, Finish(w, error))
    ensures Open(Do(s, Finish(w, error))) < Open(s)
  {
    var t := Do(s, Finish(w, error));
    var id := s.workers[w].items[0].id;
    assert WorkerOk(s, s.workers[w]) && HeldOk(s, s.workers[w].items[0]);
    assert RowOk(s.rows[id], s.history[id], s.clock);
    MeasureFalls(s.rows, t.rows, s.nextId - 1, id);
  }

  lemma StepSpends(s: State, step: Step)
    requires Inv(s) && Can(s, step)
    ensures Open(Do(s, step)) + Spent(step) <= Open(s) + Added(step)
  {
    match step
    case Commit(w) => CommitSpends(s, w);
    case Finish(w, error) => FinishSpends(s, w, error);
    case Enqueue(kind, payload) =>
      MeasureUnaffected(s.rows, s.nextId, Fresh(kind, payload, s.clock), s.nextId - 1);
    case _ =>
  }

  function SpentIn(steps: seq<Step>): int
  {
    if steps == [] then 0 else Spent(steps[0]) + SpentIn(steps[1..])
  }

  function AddedIn(steps: seq<Step>): int
  {
    if steps == [] then 0 else Added(steps[0]) + AddedIn(steps[1..])
  }

  // Claims and marks are paid for by open rows, 16 for each enqueued one, so without new rows
  // their number is bounded and the outbox drains.
  lemma {:induction false} OutboxDrains(s: State, steps: seq<Step>)
    requires Inv(s) && CanRun(s, steps)
    ensures Open(Run(s, steps)) >= 0
    ensures Open(Run(s, steps)) + SpentIn(steps) <= Open(s) + AddedIn(steps)
    decreases |steps|
  {
    if steps == [] {
      MeasureNatural(s, s.nextId - 1);
    } else {
      StepSpends(s, steps[0]);
      StepKeepsInv(s, steps[0]);
      OutboxDrains(Do(s, steps[0]), steps[1..]);
    }
  }
}
