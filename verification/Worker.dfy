/** The sample worker's handlers: scheduling, deleting and firing jobs on the due store, with any
    number of pollers working through batches they read earlier. */
module Worker {
  import opened Text
  import opened DueStore

  const RETRY_SECONDS := 30
  const DEFAULT_MESSENGER := "telegram"

  // ---------- handlers ----------

  // _sync_pre_remind
  function SyncPre(r: Redis, preKey: string, fireAt: int, job: Job, now: int): Redis {
    if job.preSecs == 0 || fireAt - job.preSecs <= now then Remove(r, preKey)
    else Upsert(r, preKey, fireAt - job.preSecs, job.(recurring := false, isPre := true))
  }

  function MainJob(messenger: string, taskId: int, recurring: bool, preSecs: nat): Job {
    Job(messenger, taskId, recurring, preSecs, false)
  }

  // schedule_task; start is the first occurrence after now for an overdue recurring task.
  function Schedule(
    r: Redis, messenger: string, taskId: int, start: int, recurring: bool, preSecs: nat, now: int): Redis
  {
    var job := MainJob(messenger, taskId, recurring, preSecs);
    SyncPre(Upsert(r, JobId(messenger, taskId), start, job), PreJobId(messenger, taskId), start, job, now)
  }

  // delete_task
  function Delete(r: Redis, messenger: string, taskId: int): Redis {
    Remove(Remove(r, JobId(messenger, taskId)), PreJobId(messenger, taskId))
  }

  // The messenger fire_due reads from the payload.
  function MessengerOf(job: Job): string {
    if job.messenger == "" then DEFAULT_MESSENGER else job.messenger
  }

  // fire_due asks for the next occurrence of a rule that has none, and the handler raises.
  predicate Exhausted(job: Job, delivered: bool, next: Option<int>) {
    delivered && !job.isPre && job.recurring && next.None?
  }

  // What fire_due does with a job it has claimed; next is the occurrence after now, if any.
  function Fire(r: Redis, d: Due, delivered: bool, next: Option<int>, now: int): Redis {
    var key, job := d.key, d.job;
    if !delivered then Upsert(r, key, now + RETRY_SECONDS, job)
    else if job.isPre then Remove(r, key)
    else if !job.recurring then Remove(Remove(r, key), PreJobId(MessengerOf(job), job.taskId))
    else
      match next
      case None => r
      case Some(at) => SyncPre(Upsert(r, key, at, job), PreJobId(MessengerOf(job), job.taskId), at, job, now)
  }

  function FireOne(r: Redis, d: Due, delivered: bool, next: Option<int>, now: int): Redis {
    if d.key in r.zset then Fire(Drop(r, d.key), d, delivered, next, now) else r
  }

  predicate Raises(r: Redis, d: Due, delivered: bool, next: Option<int>) {
    d.key in r.zset && Exhausted(d.job, delivered, next)
  }

  // The batch in order, up to the first job whose handling raises.
  function FireAll(r: Redis, batch: seq<Due>, delivers: Due -> bool, next: Due -> Option<int>, now: int): Redis
    decreases |batch|
  {
    if batch == [] then r
    else
      var d := batch[0];
      var after := FireOne(r, d, delivers(d), next(d), now);
      if Raises(r, d, delivers(d), next(d)) then after else FireAll(after, batch[1..], delivers, next, now)
  }

  class Handlers {
    const store: Store

    constructor (s: Store)
      ensures store == s
    {
      store := s;
    }

    method SyncPreRemind(preKey: string, fireAt: int, job: Job, now: int)
      modifies store
      ensures store.redis == SyncPre(old(store.redis), preKey, fireAt, job, now)
    {
      if job.preSecs == 0 {
        var _ := store.RemoveJob(preKey);
        return;
      }
      var preAt := fireAt - job.preSecs;
      if preAt <= now {
        var _ := store.RemoveJob(preKey);
        return;
      }
      store.UpsertJob(preKey, preAt, job.(recurring := false, isPre := true));
    }

    method ScheduleTask(messenger: string, taskId: int, start: int, recurring: bool, preSecs: nat, now: int)
      modifies store
      ensures store.redis == Schedule(old(store.redis), messenger, taskId, start, recurring, preSecs, now)
    {
      var job := MainJob(messenger, taskId, recurring, preSecs);
      store.UpsertJob(JobId(messenger, taskId), start, job);
      SyncPreRemind(PreJobId(messenger, taskId), start, job, now);
    }

    method DeleteTask(messenger: string, taskId: int)
      modifies store
      ensures store.redis == Delete(old(store.redis), messenger, taskId)
    {
      var _ := store.RemoveJob(JobId(messenger, taskId));
      var _ := store.RemoveJob(PreJobId(messenger, taskId));
    }

    // One iteration of fire_due; ok is false when it raises.
    method FireJob(d: Due, delivered: bool, next: Option<int>, now: int) returns (fired: bool, ok: bool)
      modifies store
      ensures store.redis == FireOne(old(store.redis), d, delivered, next, now)
      ensures fired == (d.key in old(store.redis).zset && delivered)
      ensures ok == !Raises(old(store.redis), d, delivered, next)
    {
      var claimed := store.Claim(d.key);
      if !claimed {
        assert store.redis == old(store.redis);
        return false, true;
      }
      if !delivered {
        store.UpsertJob(d.key, now + RETRY_SECONDS, d.job);
        return false, true;
      }
      if d.job.isPre {
        var _ := store.RemoveJob(d.key);
        return true, true;
      }
      var preKey := PreJobId(MessengerOf(d.job), d.job.taskId);
      if d.job.recurring {
        if next.None? {
          return true, false;
        }
        store.UpsertJob(d.key, next.value, d.job);
        SyncPreRemind(preKey, next.value, d.job, now);
      } else {
        var _ := store.RemoveJob(d.key);
        var _ := store.RemoveJob(preKey);
      }
      fired, ok := true, true;
    }

    // fire_due by a poller that is alone; delivers says which webhooks answer.
    method FireDue(delivers: Due -> bool, next: Due -> Option<int>, now: int) returns (batch: seq<Due>)
      modifies store
      ensures exists keys :: InRange(old(store.redis).zset, now, 64, keys) && batch == Payloads(old(store.redis), keys)
                             && store.redis == FireAll(DropOrphans(old(store.redis), keys), batch, delivers, next, now)
    {
      batch := store.DueJobs(now, 64);
      ghost var start := store.redis;
      var i, ok := 0, true;
      while i < |batch| && ok
        invariant 0 <= i <= |batch|
        invariant FireAll(start, batch, delivers, next, now) ==
                  if ok then FireAll(store.redis, batch[i..], delivers, next, now) else store.redis
      {
        assert batch[i..][1..] == batch[i + 1..];
        var _, handled := FireJob(batch[i], delivers(batch[i]), next(batch[i]), now);
        ok := handled;
        i := i + 1;
      }
    }
  }

  // ---------- what becomes of a job that was claimed ----------

  // A payload names the same task as its key, and its messenger has a name.
  predicate Consistent(key: string, job: Job) {
    && job.messenger != ""
    && key == if job.isPre then PreJobId(job.messenger, job.taskId) else JobId(job.messenger, job.taskId)
  }

  // A claimed job is armed again exactly when it was not delivered or its rule has a next
  // occurrence; its payload outlives it only then, or when the rule has run out.
  lemma FiredJobIsArmedExactly(r: Redis, d: Due, delivered: bool, next: Option<int>, now: int)
    requires Consistent(d.key, d.job) && d.key in r.zset && d.key in r.hash
    ensures var t := FireOne(r, d, delivered, next, now);
            && (d.key in t.zset <==> !delivered || (d.job.recurring && !d.job.isPre && next.Some?))
            && (d.key in t.hash <==> d.key in t.zset || Exhausted(d.job, delivered, next))
  {
    KeysAreDistinct(d.job.messenger, d.job.taskId, d.job.messenger, d.job.taskId);
  }

  // ---------- when jobs are armed ----------

  predicate ArmedFor(r: Redis, key: string, at: int, job: Job) {
    key in r.zset && r.zset[key].score == at && key in r.hash && r.hash[key] == job
  }

  predicate Gone(r: Redis, key: string) { key !in r.zset && key !in r.hash }

  predicate SameAt(r: Redis, t: Redis, key: string) {
    && (key in t.zset <==> key in r.zset) && (key in r.zset ==> t.zset[key] == r.zset[key])
    && (key in t.hash <==> key in r.hash) && (key in r.hash ==> t.hash[key] == r.hash[key])
  }

  ghost predicate OthersKept(r: Redis, t: Redis, keys: set<string>) {
    forall k :: k !in keys ==> SameAt(r, t, k)
  }

  // The pre-reminder of a main job due at `at` is armed that many seconds earlier, as a job that
  // fires once, when it is wanted and still to come; otherwise there is none.
  predicate PreFollows(r: Redis, messenger: string, taskId: int, at: int, preSecs: nat, now: int) {
    var key := PreJobId(messenger, taskId);
    if preSecs > 0 && now < at - preSecs
    then ArmedFor(r, key, at - preSecs, Job(messenger, taskId, false, preSecs, true)) else Gone(r, key)
  }

  // Scheduling arms the main job for its start and the pre-reminder before it.
  lemma ScheduleTimes(
      r: Redis, messenger: string, taskId: int, start: int, recurring: bool, preSecs: nat, now: int)
    ensures var t := Schedule(r, messenger, taskId, start, recurring, preSecs, now);
            && ArmedFor(t, JobId(messenger, taskId), start, Job(messenger, taskId, recurring, preSecs, false))
            && PreFollows(t, messenger, taskId, start, preSecs, now)
            && OthersKept(r, t, {JobId(messenger, taskId), PreJobId(messenger, taskId)})
  {
    KeysAreDistinct(messenger, taskId, messenger, taskId);
  }

  // Deleting leaves neither job of the task, whatever was armed.
  lemma DeleteClears(r: Redis, messenger: string, taskId: int)
    ensures var t := Delete(r, messenger, taskId);
            && Gone(t, JobId(messenger, taskId)) && Gone(t, PreJobId(messenger, taskId))
            && OthersKept(r, t, {JobId(messenger, taskId), PreJobId(messenger, taskId)})
  {
  }

  // A claimed job that is not delivered is armed for 30 seconds later; a recurring one for its next
  // occurrence, with the pre-reminder before that one; a one-shot is gone with its pre-reminder,
  // and a pre-reminder goes alone.
  lemma FireTimes(r: Redis, d: Due, delivered: bool, next: Option<int>, now: int)
    requires Consistent(d.key, d.job) && d.key in r.zset && d.key in r.hash && !Exhausted(d.job, delivered, next)
    ensures var t, job := FireOne(r, d, delivered, next, now), d.job;
            var preKey := PreJobId(job.messenger, job.taskId);
            if !delivered then ArmedFor(t, d.key, now + 30, job) && OthersKept(r, t, {d.key})
            else if job.isPre then Gone(t, d.key) && OthersKept(r, t, {d.key})
            else
              && OthersKept(r, t, {d.key, preKey})
              && if job.recurring then ArmedFor(t, d.key, next.value, job)
                                       && PreFollows(t, job.messenger, job.taskId, next.value, job.preSecs, now)
                 else Gone(t, d.key) && Gone(t, preKey)
  {
    KeysAreDistinct(d.job.messenger, d.job.taskId, d.job.messenger, d.job.taskId);
  }

  // A rule that has run out also cuts its batch short: later jobs are left as they are.
  lemma {:induction false} ExhaustedRuleEndsBatch(
      r: Redis, p: seq<Due>, d: Due, rest: seq<Due>, delivers: Due -> bool, next: Due -> Option<int>, now: int)
    requires Raises(FireAll(r, p, delivers, next, now), d, delivers(d), next(d))
    ensures FireAll(r, p + [d] + rest, delivers, next, now) == FireAll(r, p + [d], delivers, next, now)
    decreases |p|
  {
    var all, less := p + [d] + rest, p + [d];
    if p == [] {
      assert all[0] == d && less[0] == d;
    } else {
      assert all[0] == p[0] && all[1..] == p[1..] + [d] + rest && less[0] == p[0] && less[1..] == p[1..] + [d];
      if !Raises(r, p[0], delivers(p[0]), next(p[0])) {
        ExhaustedRuleEndsBatch(FireOne(r, p[0], delivers(p[0]), next(p[0]), now), p[1..], d, rest, delivers, next, now);
      }
    }
  }

  // ---------- the worker as a system ----------

  datatype TaskRef = TaskRef(messenger: string, taskId: int)

  // closed holds the tasks whose one-shot reminder has fired since they were last scheduled;
  // fired is the log of delivered jobs.
  datatype World = World(
    redis: Redis, clock: int, batches: map<int, seq<Due>>, fired: seq<string>, closed: set<TaskRef>)

  datatype Step =
    | Tick(seconds: nat)
    | ScheduleTask(messenger: string, taskId: int, start: int, recurring: bool, preSecs: nat)
    | DeleteTask(messenger: string, taskId: int)
    | ReadDue(poller: int, keys: seq<string>)
    | FireNext(poller: int, delivered: bool, next: Option<int>)

  predicate Can(w: World, step: Step) {
    match step
    case ReadDue(_, keys) => InRange(w.redis.zset, w.clock, 64, keys)
    case FireNext(poller, _, _) => poller in w.batches && w.batches[poller] != []
    case _ => true
  }

  function Do(w: World, step: Step): World
    requires Can(w, step)
  {
    match step
    case Tick(seconds) => w.(clock := w.clock + seconds)
    case ScheduleTask(messenger, taskId, start, recurring, preSecs) =>
      w.(redis := Schedule(w.redis, messenger, taskId, start, recurring, preSecs, w.clock),
         closed := w.closed - {TaskRef(messenger, taskId)})
    case DeleteTask(messenger, taskId) => w.(redis := Delete(w.redis, messenger, taskId))
    case ReadDue(poller, keys) =>
      w.(redis := DropOrphans(w.redis, keys), batches := w.batches[poller := Payloads(w.redis, keys)])
    case FireNext(poller, delivered, next) =>
      var d := w.batches[poller][0];
      var rest := if Raises(w.redis, d, delivered, next) then [] else w.batches[poller][1..];
      var left := w.(batches := w.batches[poller := rest]);
      if d.key !in w.redis.zset then left
      else
        left.(redis := Fire(Drop(w.redis, d.key), d, delivered, next, w.clock),
              fired := if delivered then w.fired + [d.key] else w.fired,
              closed := if !delivered || d.job.isPre || d.job.recurring then w.closed
                        else w.closed + {TaskRef(d.job.messenger, d.job.taskId)})
  }

  predicate CanRun(w: World, steps: seq<Step>)
    decreases |steps|
  {
    steps == [] || (Can(w, steps[0]) && CanRun(Do(w, steps[0]), steps[1..]))
  }

  function Run(w: World, steps: seq<Step>): World
    requires CanRun(w, steps)
    decreases |steps|
  {
    if steps == [] then w else Run(Do(w, steps[0]), steps[1..])
  }

  // ---------- a one-shot task and its pre-reminder ----------

  predicate Quiet(r: Redis, t: TaskRef) {
    JobId(t.messenger, t.taskId) !in r.zset && PreJobId(t.messenger, t.taskId) !in r.zset
  }

  ghost predicate Inv(w: World) {
    && (forall k :: k in w.redis.hash ==> Consistent(k, w.redis.hash[k]))
    && (forall p :: p in w.batches ==>
          forall i :: 0 <= i < |w.batches[p]| ==> Consistent(w.batches[p][i].key, w.batches[p][i].job))
    && (forall t :: t in w.closed ==> Quiet(w.redis, t))
  }

  // Every task is scheduled under the name of a messenger.
  predicate Named(step: Step) { step.ScheduleTask? ==> step.messenger != "" }

  lemma ScheduleTouchesOneTask(
      r: Redis, messenger: string, taskId: int, start: int, recurring: bool, preSecs: nat, now: int, t: TaskRef)
    requires t != TaskRef(messenger, taskId) && Quiet(r, t)
    ensures Quiet(Schedule(r, messenger, taskId, start, recurring, preSecs, now), t)
  {
    KeysAreDistinct(messenger, taskId, t.messenger, t.taskId);
    KeysAreDistinct(t.messenger, t.taskId, messenger, taskId);
  }

  lemma SyncPreConsistent(r: Redis, fireAt: int, job: Job, now: int)
    requires forall k :: k in r.hash ==> Consistent(k, r.hash[k])
    requires job.messenger != ""
    ensures var q := SyncPre(r, PreJobId(job.messenger, job.taskId), fireAt, job, now);
            forall k :: k in q.hash ==> Consistent(k, q.hash[k])
  {
  }

  // Firing arms only the claimed key and the pre key of the same task.
  lemma FireTouchesOneTask(r: Redis, d: Due, delivered: bool, next: Option<int>, now: int, t: TaskRef)
    requires Consistent(d.key, d.job) && Quiet(r, t) && t != TaskRef(d.job.messenger, d.job.taskId)
    ensures Quiet(Fire(r, d, delivered, next, now), t)
  {
    KeysAreDistinct(d.job.messenger, d.job.taskId, t.messenger, t.taskId);
    KeysAreDistinct(t.messenger, t.taskId, d.job.messenger, d.job.taskId);
  }

  lemma FireConsistent(r: Redis, d: Due, delivered: bool, next: Option<int>, now: int)
    requires Consistent(d.key, d.job) && forall k :: k in r.hash ==> Consistent(k, r.hash[k])
    ensures var q := Fire(r, d, delivered, next, now);
            forall k :: k in q.hash ==> Consistent(k, q.hash[k])
  {
    if delivered && !d.job.isPre && d.job.recurring && next.Some? {
      SyncPreConsistent(Upsert(r, d.key, next.value, d.job), next.value, d.job, now);
    }
  }

  lemma ScheduleKeepsInv(w: World, step: Step)
    requires Inv(w) && step.ScheduleTask? && step.messenger != ""
    ensures Inv(Do(w, step))
  {
    var job := MainJob(step.messenger, step.taskId, step.recurring, step.preSecs);
    SyncPreConsistent(Upsert(w.redis, JobId(step.messenger, step.taskId), step.start, job), step.start, job, w.clock);
    forall t | t in Do(w, step).closed ensures Quiet(Do(w, step).redis, t) {
      ScheduleTouchesOneTask(
        w.redis, step.messenger, step.taskId, step.start, step.recurring, step.preSecs, w.clock, t);
    }
  }

  lemma FireKeepsQuiet(w: World, d: Due, delivered: bool, next: Option<int>, t: TaskRef)
    requires Consistent(d.key, d.job) && d.key in w.redis.zset && Quiet(w.redis, t)
    ensures Quiet(Fire(Drop(w.redis, d.key), d, delivered, next, w.clock), t)
  {
    FireTouchesOneTask(Drop(w.redis, d.key), d, delivered, next, w.clock, t);
  }

  lemma FireNextKeepsInv(w: World, step: Step)
    requires Inv(w) && step.FireNext? && Can(w, step)
    ensures Inv(Do(w, step))
  {
    var d := w.batches[step.poller][0];
    var u := Do(w, step);
    assert Consistent(d.key, d.job);
    if d.key in w.redis.zset {
      FireConsistent(Drop(w.redis, d.key), d, step.delivered, step.next, w.clock);
      forall t | t in u.closed ensures Quiet(u.redis, t) {
        if t in w.closed { FireKeepsQuiet(w, d, step.delivered, step.next, t); }
      }
    }
  }

  lemma StepKeepsInv(w: World, step: Step)
    requires Inv(w) && Can(w, step) && Named(step)
    ensures Inv(Do(w, step))
  {
    match step
    case ScheduleTask(_, _, _, _, _) => ScheduleKeepsInv(w, step);
    case FireNext(_, _, _) => FireNextKeepsInv(w, step);
    case _ =>
  }

  predicate Schedules(step: Step, t: TaskRef) {
    step.ScheduleTask? && TaskRef(step.messenger, step.taskId) == t
  }

  lemma StepLeavesClosed(w: World, step: Step, t: TaskRef)
    requires Inv(w) && Can(w, step) && t in w.closed && !Schedules(step, t)
    ensures t in Do(w, step).closed && w.fired <= Do(w, step).fired
    ensures forall i :: |w.fired| <= i < |Do(w, step).fired| ==>
              && Do(w, step).fired[i] != JobId(t.messenger, t.taskId)
              && Do(w, step).fired[i] != PreJobId(t.messenger, t.taskId)
  {
    assert Quiet(w.redis, t);
  }

  // Main result: once the reminder of a one-shot task has fired, its pre-reminder is not armed,
  // and neither job fires again until that task is scheduled anew.
  lemma {:induction false} FiredOneShotStaysQuiet(w: World, steps: seq<Step>, t: TaskRef)
    requires Inv(w) && CanRun(w, steps) && t in w.closed
    requires forall i :: 0 <= i < |steps| ==> Named(steps[i]) && !Schedules(steps[i], t)
    ensures var u := Run(w, steps);
            && Inv(u) && t in u.closed && Quiet(u.redis, t) && w.fired <= u.fired
            && forall i :: |w.fired| <= i < |u.fired| ==>
                 u.fired[i] != JobId(t.messenger, t.taskId) && u.fired[i] != PreJobId(t.messenger, t.taskId)
    decreases |steps|
  {
    if steps != [] {
      StepLeavesClosed(w, steps[0], t);
      StepKeepsInv(w, steps[0]);
      assert forall i :: 0 <= i < |steps[1..]| ==> steps[1..][i] == steps[i + 1];
      FiredOneShotStaysQuiet(Do(w, steps[0]), steps[1..], t);
    }
  }

  // ---------- from an empty store on ----------

  function Fresh(clock: int): World { World(Redis(map[], map[], 0), clock, map[], [], {}) }

  predicate AllNamed(steps: seq<Step>) {
    forall i :: 0 <= i < |steps| ==> Named(steps[i])
  }

  lemma {:induction false} RunKeepsInv(w: World, steps: seq<Step>)
    requires Inv(w) && CanRun(w, steps) && AllNamed(steps)
    ensures Inv(Run(w, steps))
    decreases |steps|
  {
    if steps != [] {
      assert Named(steps[0]);
      StepKeepsInv(w, steps[0]);
      assert forall i :: 0 <= i < |steps[1..]| ==> steps[1..][i] == steps[i + 1];
      RunKeepsInv(Do(w, steps[0]), steps[1..]);
    }
  }

  // A poller claims and delivers the main job of a one-shot reminder.
  predicate FiresOneShot(w: World, step: Step, t: TaskRef) {
    && step.FireNext? && Can(w, step) && step.delivered
    && var d := w.batches[step.poller][0];
       d.key in w.redis.zset && !d.job.isPre && !d.job.recurring && t == TaskRef(d.job.messenger, d.job.taskId)
  }

  lemma FiringCloses(w: World, step: Step, t: TaskRef)
    requires Inv(w) && FiresOneShot(w, step, t)
    ensures Inv(Do(w, step)) && t in Do(w, step).closed
  {
    FireNextKeepsInv(w, step);
  }

  // Main result: from an empty store, whatever was scheduled, read and fired before, a one-shot
  // reminder that fires is over, and its pre-reminder with it, until it is scheduled again.
  lemma OneShotFiresOnce(clock: int, before: seq<Step>, fire: Step, later: seq<Step>, t: TaskRef)
    requires CanRun(Fresh(clock), before) && AllNamed(before) && FiresOneShot(Run(Fresh(clock), before), fire, t)
    requires CanRun(Do(Run(Fresh(clock), before), fire), later)
    requires forall i :: 0 <= i < |later| ==> Named(later[i]) && !Schedules(later[i], t)
    ensures var w := Do(Run(Fresh(clock), before), fire);
            var u := Run(w, later);
            && Quiet(u.redis, t) && w.fired <= u.fired
            && forall i :: |w.fired| <= i < |u.fired| ==>
                 u.fired[i] != JobId(t.messenger, t.taskId) && u.fired[i] != PreJobId(t.messenger, t.taskId)
  {
    RunKeepsInv(Fresh(clock), before);
    var w := Run(Fresh(clock), before);
    FiringCloses(w, fire, t);
    FiredOneShotStaysQuiet(Do(w, fire), later, t);
  }

  // ---------- where it fails ----------

  // schedule_task writes the main job and the pre-reminder in two steps. When the main job fires
  // in between, the pre-reminder of the reminder that is over is left armed if and only if its
  // time was still to come when the schedule was read.
  lemma SplitScheduleLeavesPre(
      r: Redis, messenger: string, taskId: int, start: int, preSecs: nat, next: Option<int>, before: int, after: int)
    ensures var job := MainJob(messenger, taskId, false, preSecs);
            var armed := Upsert(r, JobId(messenger, taskId), start, job);
            var due := Due(JobId(messenger, taskId), job);
            var fired := Fire(Drop(armed, due.key), due, true, next, after);
            PreJobId(messenger, taskId) in SyncPre(fired, PreJobId(messenger, taskId), start, job, before).zset <==>
            preSecs > 0 && before < start - preSecs
  {
  }

  // When the schedule is written as a whole, firing the main job leaves the pre-reminder armed if
  // and only if the messenger has an empty name: the pre-reminder is then looked for under another.
  lemma UnnamedMessengerLeavesPre(
      r: Redis, messenger: string, taskId: int, start: int, preSecs: nat, next: Option<int>, now: int, later: int)
    ensures var job := MainJob(messenger, taskId, false, preSecs);
            var armed := Schedule(r, messenger, taskId, start, false, preSecs, now);
            var due := Due(JobId(messenger, taskId), job);
            var fired := Fire(Drop(armed, due.key), due, true, next, later);
            PreJobId(messenger, taskId) in fired.zset <==> messenger == "" && preSecs > 0 && now < start - preSecs
  {
    KeysAreDistinct(messenger, taskId, messenger, taskId);
    KeysAreDistinct(messenger, taskId, DEFAULT_MESSENGER, taskId);
  }
}
