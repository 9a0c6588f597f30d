/** The sample worker's store: a due-time index (ZSET) beside a payload hash, its job keys, and what
    every interleaving of Redis commands keeps. */
module DueStore {
  import opened Text

  // ---------- job keys ----------

  // str() of an integer task id
  function IntText(n: int): string {
    if n >= 0 then Itoa(n) else "-" + Itoa(-n)
  }

  function JobId(messenger: string, taskId: int): string { messenger + "_" + IntText(taskId) }

  function PreJobId(messenger: string, taskId: int): string { messenger + "_" + IntText(taskId) + "_pre" }

  lemma SeparatorIn(a: string, b: string, c: string, d: string, sep: char)
    requires a + [sep] + b == c + [sep] + d && |a| < |c|
    ensures sep in b
  {
    assert (a + [sep] + b)[|c|] == b[|c| - |a| - 1];
    assert (c + [sep] + d)[|c|] == sep;
  }

  lemma LastSplit(a: string, b: string, c: string, d: string, sep: char)
    requires a + [sep] + b == c + [sep] + d && sep !in b && sep !in d
    ensures a == c && b == d
  {
    var s := a + [sep] + b;
    if |a| < |c| {
      SeparatorIn(a, b, c, d, sep);
    } else if |c| < |a| {
      SeparatorIn(c, d, a, b, sep);
    } else {
      assert a == s[..|a|] && c == s[..|c|] && b == s[|a| + 1..] && d == s[|c| + 1..];
    }
  }

  predicate IdText(s: string) {
    s != "" && forall i :: 0 <= i < |s| ==> IsDigit(s[i]) || s[i] == '-'
  }

  lemma IntTextShape(n: int)
    ensures IdText(IntText(n)) && '_' !in IntText(n)
  {
  }

  lemma DigitText(n: nat)
    ensures IsDigit(Itoa(n)[0])
  {
  }

  lemma IntTextInjective(m: int, n: int)
    requires IntText(m) == IntText(n)
    ensures m == n
  {
    if m >= 0 { DigitText(m); } else { assert IntText(m)[1..] == Itoa(-m) && IntText(m)[0] == '-'; }
    if n >= 0 { DigitText(n); } else { assert IntText(n)[1..] == Itoa(-n) && IntText(n)[0] == '-'; }
  }

  lemma PreText(s: string)
    requires s == "pre"
    ensures '_' !in s && !IdText(s)
  {
    assert !IsDigit(s[0]) && s[0] != '-';
  }

  lemma PreJobIsSuffixed(messenger: string, taskId: int)
    ensures PreJobId(messenger, taskId) == JobId(messenger, taskId) + ['_'] + "pre"
  {
    assert JobId(messenger, taskId) + "_pre" == JobId(messenger, taskId) + ['_'] + "pre";
  }

  // For integer ids a key names one messenger and task, and no main key is a pre key.
  lemma KeysAreDistinct(m: string, i: int, n: string, j: int)
    ensures JobId(m, i) == JobId(n, j) ==> m == n && i == j
    ensures PreJobId(m, i) == PreJobId(n, j) ==> m == n && i == j
    ensures JobId(m, i) != PreJobId(n, j)
  {
    IntTextShape(i);
    IntTextShape(j);
    PreText("pre");
    PreJobIsSuffixed(m, i);
    PreJobIsSuffixed(n, j);
    assert JobId(m, i) == m + ['_'] + IntText(i) && JobId(n, j) == n + ['_'] + IntText(j);
    if JobId(m, i) == JobId(n, j) {
      LastSplit(m, IntText(i), n, IntText(j), '_');
      IntTextInjective(i, j);
    }
    if PreJobId(m, i) == PreJobId(n, j) {
      LastSplit(JobId(m, i), "pre", JobId(n, j), "pre", '_');
      LastSplit(m, IntText(i), n, IntText(j), '_');
      IntTextInjective(i, j);
    }
    if JobId(m, i) == PreJobId(n, j) {
      LastSplit(m, IntText(i), JobId(n, j), "pre", '_');
    }
  }

  // ---------- the store ----------

  // recurring stands for a cron expression or rule; preSecs is 0 when there is no pre-reminder.
  datatype Job = Job(messenger: string, taskId: int, recurring: bool, preSecs: nat, isPre: bool)

  // Each time a key is put into the index it is armed anew.
  datatype Armed = Armed(score: int, arming: nat)

  datatype Redis = Redis(zset: map<string, Armed>, hash: map<string, Job>, armings: nat)

  // upsert: HSET and ZADD in one transaction
  function Upsert(r: Redis, key: string, score: int, job: Job): Redis {
    Redis(r.zset[key := Armed(score, r.armings)], r.hash[key := job], r.armings + 1)
  }

  // remove: ZREM and DEL in one transaction
  function Remove(r: Redis, key: string): Redis {
    r.(zset := r.zset - {key}, hash := r.hash - {key})
  }

  // ZREM, by claim or for a member found without payload
  function Drop(r: Redis, key: string): Redis { r.(zset := r.zset - {key}) }

  predicate IndexBacked(r: Redis) { r.zset.Keys <= r.hash.Keys }

  datatype Due = Due(key: string, job: Job)

  // The due members, at most limit of them, by score.
  predicate InRange(zset: map<string, Armed>, now: int, limit: nat, keys: seq<string>) {
    && |keys| <= limit
    && (forall i :: 0 <= i < |keys| ==> keys[i] in zset && zset[keys[i]].score <= now)
    && (forall i, j :: 0 <= i < j < |keys| ==> keys[i] != keys[j] && zset[keys[i]].score <= zset[keys[j]].score)
    && (forall k :: k in zset && zset[k].score <= now && k !in keys ==>
          |keys| == limit && forall i :: 0 <= i < |keys| ==> zset[keys[i]].score <= zset[k].score)
  }

  // The keys read are members whose time has come; each such member is read, unless the limit is
  // filled with ones that are not later.
  lemma ReadExactly(zset: map<string, Armed>, now: int, limit: nat, keys: seq<string>, k: string)
    requires InRange(zset, now, limit, keys)
    ensures k in keys ==> k in zset && zset[k].score <= now
    ensures k in zset && zset[k].score <= now ==>
              k in keys || (|keys| == limit && forall j :: j in keys ==> zset[j].score <= zset[k].score)
  {
  }

  predicate Earliest(zset: map<string, Armed>, left: set<string>, k: string)
    requires left <= zset.Keys
  {
    k in left && forall l :: l in left ==> zset[k].score <= zset[l].score
  }

  lemma {:induction false} HasEarliest(zset: map<string, Armed>, left: set<string>) returns (k: string)
    requires left <= zset.Keys && left != {}
    ensures Earliest(zset, left, k)
    decreases |left|
  {
    assert (forall l :: l !in left) ==> left == {};
    var e :| e in left;
    k := e;
    var rest := left - {e};
    if rest != {} {
      var f := HasEarliest(zset, rest);
      assert forall l :: l in left ==> l == e || l in rest;
      if zset[f].score < zset[e].score { k := f; }
    } else {
      assert left == {e};
    }
  }

  class Store {
    var redis: Redis

    constructor ()
      ensures redis == Redis(map[], map[], 0)
    {
      redis := Redis(map[], map[], 0);
    }

    method UpsertJob(key: string, fireAt: int, job: Job)
      modifies this
      ensures redis == Upsert(old(redis), key, fireAt, job)
    {
      redis := redis.(hash := redis.hash[key := job], zset := redis.zset[key := Armed(fireAt, redis.armings)],
                      armings := redis.armings + 1);
    }

    method RemoveJob(key: string) returns (existed: bool)
      modifies this
      ensures redis == Remove(old(redis), key) && existed == (key in old(redis).zset)
    {
      existed := key in redis.zset;
      redis := redis.(zset := redis.zset - {key}, hash := redis.hash - {key});
    }

    // Only the poller whose ZREM removed the member may fire it.
    method Claim(key: string) returns (ok: bool)
      modifies this
      ensures redis == Drop(old(redis), key) && ok == (key in old(redis).zset)
    {
      ok := key in redis.zset;
      redis := redis.(zset := redis.zset - {key});
    }

    method RangeByScore(now: int, limit: nat) returns (keys: seq<string>)
      ensures InRange(redis.zset, now, limit, keys)
    {
      var zset := redis.zset;
      var left := set k | k in zset && zset[k].score <= now;
      keys := [];
      while |keys| < limit && left != {}
        invariant left <= zset.Keys && |keys| <= limit
        invariant forall k :: k in zset && zset[k].score <= now <==> k in left || k in keys
        invariant forall i :: 0 <= i < |keys| ==> keys[i] in zset && keys[i] !in left
        invariant forall i, k :: 0 <= i < |keys| && k in left ==> zset[keys[i]].score <= zset[k].score
        invariant forall i, j :: 0 <= i < j < |keys| ==>
                    keys[i] != keys[j] && zset[keys[i]].score <= zset[keys[j]].score
        decreases left
      {
        ghost var e := HasEarliest(zset, left);
        var k :| k in left && Earliest(zset, left, k);
        assert Earliest(zset, left, k);
        keys := keys + [k];
        left := left - {k};
      }
    }

    // due: members without a payload are dropped from the index, the others are returned.
    method DueJobs(now: int, limit: nat) returns (out: seq<Due>)
      modifies this
      ensures exists keys :: InRange(old(redis).zset, now, limit, keys)
                             && out == Payloads(old(redis), keys) && redis == DropOrphans(old(redis), keys)
    {
      var keys := RangeByScore(now, limit);
      out := [];
      var i := 0;
      ghost var was := redis;
      assert redis == DropOrphans(was, keys[..i]);
      while i < |keys|
        invariant 0 <= i <= |keys|
        invariant out == Payloads(was, keys[..i]) && redis == DropOrphans(was, keys[..i])
      {
        OneMoreRead(was, keys, i);
        if keys[i] in redis.hash {
          out := out + [Due(keys[i], redis.hash[keys[i]])];
        } else {
          redis := redis.(zset := redis.zset - {keys[i]});
        }
        i := i + 1;
      }
      assert keys[..i] == keys;
    }
  }

  // The jobs of the keys that have a payload.
  function Payloads(r: Redis, keys: seq<string>): (out: seq<Due>)
    ensures forall i :: 0 <= i < |out| ==> out[i].key in r.hash && out[i].job == r.hash[out[i].key]
    decreases |keys|
  {
    if keys == [] then []
    else
      var n := |keys| - 1;
      Payloads(r, keys[..n]) + if keys[n] in r.hash then [Due(keys[n], r.hash[keys[n]])] else []
  }

  function Orphans(r: Redis, keys: seq<string>): set<string> {
    set k | k in keys && k !in r.hash
  }

  function DropOrphans(r: Redis, keys: seq<string>): Redis { r.(zset := r.zset - Orphans(r, keys)) }

  lemma OrphansCons(r: Redis, keys: seq<string>, key: string)
    ensures Orphans(r, keys + [key]) == Orphans(r, keys) + if key in r.hash then {} else {key}
  {
    forall k ensures k in keys + [key] <==> k in keys || k == key {
      if k in keys {
        var i :| 0 <= i < |keys| && keys[i] == k;
        assert (keys + [key])[i] == k;
      }
      assert (keys + [key])[|keys|] == key;
    }
  }

  lemma DropMore(m: map<string, Armed>, some: set<string>, key: string)
    ensures m - (some + {key}) == (m - some) - {key} && m - (some + {}) == m - some
  {
    assert some + {} == some;
  }

  lemma PayloadsCons(r: Redis, keys: seq<string>, key: string)
    ensures Payloads(r, keys + [key]) == Payloads(r, keys) + if key in r.hash then [Due(key, r.hash[key])] else []
  {
    assert (keys + [key])[..|keys|] == keys;
  }

  lemma OneMoreRead(r: Redis, keys: seq<string>, i: nat)
    requires i < |keys|
    ensures Payloads(r, keys[..i + 1]) ==
            Payloads(r, keys[..i]) + if keys[i] in r.hash then [Due(keys[i], r.hash[keys[i]])] else []
    ensures DropOrphans(r, keys[..i + 1]) ==
            if keys[i] in r.hash then DropOrphans(r, keys[..i]) else Drop(DropOrphans(r, keys[..i]), keys[i])
  {
    assert keys[..i + 1] == keys[..i] + [keys[i]];
    PayloadsCons(r, keys[..i], keys[i]);
    OrphansCons(r, keys[..i], keys[i]);
    DropMore(r.zset, Orphans(r, keys[..i]), keys[i]);
  }

  // While every member has a payload, a range read returns the job of each of its keys and drops
  // nothing.
  lemma {:induction false} BackedRead(r: Redis, keys: seq<string>)
    requires IndexBacked(r) && forall i :: 0 <= i < |keys| ==> keys[i] in r.zset
    ensures DropOrphans(r, keys) == r && |Payloads(r, keys)| == |keys|
    ensures forall i :: 0 <= i < |keys| ==> Payloads(r, keys)[i] == Due(keys[i], r.hash[keys[i]])
    decreases |keys|
  {
    assert Orphans(r, keys) == {};
    if keys != [] { BackedRead(r, keys[..|keys| - 1]); }
  }

  // ---------- any interleaving of commands ----------

  // claims counts the pollers that claimed an arming.
  datatype State = State(redis: Redis, claims: map<nat, nat>)

  datatype Command =
    | DoUpsert(key: string, score: int, job: Job)
    | DoRemove(key: string)
    | DoClaim(key: string)
    | DropOrphan(key: string)

  function Step(s: State, c: Command): State {
    match c
    case DoUpsert(key, score, job) => s.(redis := Upsert(s.redis, key, score, job))
    case DoRemove(key) => s.(redis := Remove(s.redis, key))
    case DoClaim(key) =>
      if key in s.redis.zset then
        var a := s.redis.zset[key].arming;
        State(Drop(s.redis, key), s.claims[a := (if a in s.claims then s.claims[a] else 0) + 1])
      else s
    case DropOrphan(key) => s.(redis := Drop(s.redis, key))
  }

  function Steps(s: State, cs: seq<Command>): State
    decreases |cs|
  {
    if cs == [] then s else Steps(Step(s, cs[0]), cs[1..])
  }

  ghost predicate Inv(s: State) {
    && IndexBacked(s.redis)
    && (forall k :: k in s.redis.zset ==>
          s.redis.zset[k].arming < s.redis.armings && s.redis.zset[k].arming !in s.claims)
    && (forall k, l :: k in s.redis.zset && l in s.redis.zset ==>
          s.redis.zset[k].arming == s.redis.zset[l].arming ==> k == l)
    && (forall a :: a in s.claims ==> a < s.redis.armings && s.claims[a] == 1)
  }

  lemma StepKeepsInv(s: State, c: Command)
    requires Inv(s)
    ensures Inv(Step(s, c))
  {
  }

  // Main result: whatever commands the consumer and any number of pollers issue, in any order,
  // each member of the index has a payload and each arming is claimed at most once.
  lemma {:induction false} IndexAgreesWithPayloads(s: State, cs: seq<Command>)
    requires Inv(s)
    ensures var t := Steps(s, cs);
            && (forall k :: k in t.redis.zset ==> k in t.redis.hash)
            && (forall a :: a in t.claims ==> t.claims[a] == 1)
            && Inv(t)
    decreases |cs|
  {
    if cs != [] {
      StepKeepsInv(s, cs[0]);
      IndexAgreesWithPayloads(Step(s, cs[0]), cs[1..]);
    }
  }

  lemma EmptyStart()
    ensures Inv(State(Redis(map[], map[], 0), map[]))
  {
  }

  lemma FromEmptyStart(cs: seq<Command>)
    ensures var t := Steps(State(Redis(map[], map[], 0), map[]), cs);
            IndexBacked(t.redis) && forall a :: a in t.claims ==> t.claims[a] == 1
  {
    EmptyStart();
    IndexAgreesWithPayloads(State(Redis(map[], map[], 0), map[]), cs);
  }

  // ---------- where an arming is lost ----------

  // Arming a is in no key's entry and nobody has claimed it.
  ghost predicate Lost(s: State, a: nat) {
    && a < s.redis.armings && a !in s.claims
    && forall k :: k in s.redis.zset ==> s.redis.zset[k].arming != a
  }

  lemma {:induction false} LostForGood(s: State, a: nat, cs: seq<Command>)
    requires Lost(s, a)
    ensures Lost(Steps(s, cs), a)
    decreases |cs|
  {
    if cs != [] {
      assert Lost(Step(s, cs[0]), a);
      LostForGood(Step(s, cs[0]), a, cs[1..]);
    }
  }

  // A poller that found no payload for a key drops the key. This loses an arming if and only if
  // the key is in the index at that moment; then the payload is there, and whatever follows no
  // poller ever claims that arming.
  lemma DropLosesExactly(s: State, key: string, cs: seq<Command>)
    requires Inv(s)
    ensures (exists k :: k in s.redis.zset && Lost(Step(s, DropOrphan(key)), s.redis.zset[k].arming)) <==>
            key in s.redis.zset
    ensures key in s.redis.zset ==>
              && key in Step(s, DropOrphan(key)).redis.hash
              && Lost(Steps(Step(s, DropOrphan(key)), cs), s.redis.zset[key].arming)
  {
    var t := Step(s, DropOrphan(key));
    if key in s.redis.zset {
      assert Lost(t, s.redis.zset[key].arming);
      LostForGood(t, s.redis.zset[key].arming, cs);
    } else {
      assert t.redis.zset == s.redis.zset;
    }
  }

  // How it comes about: the payload is removed, the poller finds it missing, the key is armed
  // again, and the poller drops it.
  lemma StaleDropLosesAnArming(s: State, key: string, score: int, job: Job, cs: seq<Command>)
    requires Inv(s)
    ensures key !in Step(s, DoRemove(key)).redis.hash
    ensures var t := Steps(s, [DoRemove(key), DoUpsert(key, score, job), DropOrphan(key)]);
            && key !in t.redis.zset && key in t.redis.hash && t.redis.armings == s.redis.armings + 1
            && Lost(Steps(t, cs), s.redis.armings)
  {
    var c1, c2, c3 := DoRemove(key), DoUpsert(key, score, job), DropOrphan(key);
    var s1 := Step(s, c1);
    var s2 := Step(s1, c2);
    var s3 := Step(s2, c3);
    assert [c1, c2, c3][1..] == [c2, c3] && [c2, c3][1..] == [c3] && [c3][1..] == [];
    assert Steps(s3, []) == s3;
    assert Steps(s2, [c3]) == s3;
    assert Steps(s1, [c2, c3]) == s3;
    StepKeepsInv(s, c1);
    StepKeepsInv(s1, c2);
    DropLosesExactly(s2, key, cs);
  }
}
