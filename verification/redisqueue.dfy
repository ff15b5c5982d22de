/** The Redis-backed queue (internal/queue/redis.go): a list of pending uids, two
    sorted sets and one record per task.  On histories that never queue a uid twice
    it refines the same abstract queue as the in-memory one. */
module RedisQueues {
  import opened Sums
  import opened Tasks
  import TaskQueue

  /** The server's data.  `pending` has the list head first; the sorted sets map
      members to scores. */
  datatype Redis = Redis(
    pending: seq<Uid>,
    priority: map<Uid, int>,
    delayed: map<Uid, real>,
    records: map<Uid, Task>
  )

  const EMPTY := Redis([], map[], map[], map[])

  predicate Queued(db: Redis, u: Uid) {
    u in db.pending || u in db.priority || u in db.delayed
  }

  /** No record of a queued uid has expired. */
  ghost predicate Unexpired(db: Redis) {
    forall u :: u in db.pending || u in db.priority || u in db.delayed ==> u in db.records
  }

  /** Every queued uid has its own record, and scores are negated priorities. */
  ghost predicate Recorded(db: Redis) {
    && Unexpired(db)
    && (forall u :: u in db.records ==> db.records[u].uid == u)
    && (forall u :: u in db.priority ==> db.priority[u] == -db.records[u].priority)
  }

  function Bag(records: map<Uid, Task>, keys: set<Uid>): multiset<Task>
    requires keys <= records.Keys
  {
    multiset(set u | u in keys :: records[u])
  }

  /** The tasks of the pending list, oldest first: pushes go to the head, pops come
      from the tail. */
  function Oldest(records: map<Uid, Task>, pending: seq<Uid>): (ts: seq<Task>)
    requires forall u :: u in pending ==> u in records
    ensures |ts| == |pending|
    ensures forall i :: 0 <= i < |pending| ==> ts[i] == records[pending[|pending| - 1 - i]]
  {
    if pending == [] then [] else [records[pending[|pending| - 1]]] + Oldest(records, pending[..|pending| - 1])
  }

  ghost function Contents(db: Redis): TaskQueue.Queue
    requires Unexpired(db)
  {
    TaskQueue.Queue(Bag(db.records, db.priority.Keys), Oldest(db.records, db.pending), Bag(db.records, db.delayed.Keys))
  }

  /** How one command ended: applied, refused, or applied although its reply was lost. */
  datatype Outcome = Done | Refused | Unacknowledged

  // ----- What each method leaves on the server -----

  function Store(db: Redis, t: Task): Redis {
    db.(records := db.records[t.uid := t])
  }

  function AfterPush(db: Redis, t: Task): Redis {
    Store(db, t).(pending := [t.uid] + db.pending)
  }

  function AfterPushPriority(db: Redis, t: Task): Redis {
    Store(db, t).(priority := db.priority[t.uid := -t.priority])
  }

  /** time.Unix: the fraction of the second is dropped. */
  function Seconds(now: real): real {
    now.Floor as real
  }

  function AfterPushDelayed(db: Redis, t: Task, delay: real, now: real): Redis {
    Store(db, t).(delayed := db.delayed[t.uid := Seconds(now) + delay])
  }

  /** A push whose two commands, storing the record and queueing the uid, may fail; `whole`
      is what it leaves when neither does. */
  function Attempt(db: Redis, t: Task, whole: Redis, stored: Outcome, queued: Outcome): Redis {
    if stored == Refused then db
    else if stored == Unacknowledged || queued == Refused then Store(db, t)
    else whole
  }

  ghost predicate MinScore(zset: map<Uid, int>, u: Uid) {
    u in zset && forall v :: v in zset ==> zset[u] <= zset[v]
  }

  /** `r` and `db'` are a possible outcome of pop: some member of minimal score, or
      else the tail of the list, is removed and its record returned. */
  ghost predicate PopOutcome(db: Redis, r: Option<Task>, db': Redis) {
    if db.priority != map[] then
      exists u :: MinScore(db.priority, u) && db' == db.(priority := db.priority - {u})
                  && r == if u in db.records then Some(db.records[u]) else None
    else if db.pending != [] then
      var u := db.pending[|db.pending| - 1];
      db' == db.(pending := db.pending[..|db.pending| - 1])
          && r == if u in db.records then Some(db.records[u]) else None
    else
      db' == db && r.None?
  }

  // ----- Refinement -----

  lemma BagIgnoresOthers(records: map<Uid, Task>, keys: set<Uid>, u: Uid, t: Task)
    requires keys <= records.Keys && (u !in keys || records[u] == t)
    ensures Bag(records[u := t], keys) == Bag(records, keys)
  {
  }

  lemma BagAdd(records: map<Uid, Task>, keys: set<Uid>, u: Uid)
    requires keys <= records.Keys && u in records && u !in keys
    requires forall v :: v in records ==> records[v].uid == v
    ensures Bag(records, keys + {u}) == Bag(records, keys) + multiset{records[u]}
  {
  }

  lemma BagRemove(records: map<Uid, Task>, keys: set<Uid>, u: Uid)
    requires keys <= records.Keys && u in keys
    requires forall v :: v in records ==> records[v].uid == v
    ensures Bag(records, keys - {u}) == Bag(records, keys) - multiset{records[u]} && records[u] in Bag(records, keys)
  {
  }

  lemma OldestIgnoresOthers(records: map<Uid, Task>, pending: seq<Uid>, u: Uid, t: Task)
    requires forall v :: v in pending ==> v in records
    requires u !in pending || (u in records && records[u] == t)
    ensures Oldest(records[u := t], pending) == Oldest(records, pending)
  {
  }

  lemma OldestPush(records: map<Uid, Task>, pending: seq<Uid>, u: Uid)
    requires u in records && forall v :: v in pending ==> v in records
    ensures Oldest(records, [u] + pending) == Oldest(records, pending) + [records[u]]
  {
  }

  /** Pushing `t` is harmless when its uid is not queued, or is queued with this record. */
  predicate Harmless(db: Redis, t: Task) {
    Queued(db, t.uid) ==> t.uid in db.records && db.records[t.uid] == t
  }

  lemma StoreKeepsContents(db: Redis, t: Task)
    requires Recorded(db) && Harmless(db, t)
    ensures Recorded(Store(db, t)) && Contents(Store(db, t)) == Contents(db)
  {
    BagIgnoresOthers(db.records, db.priority.Keys, t.uid, t);
    BagIgnoresOthers(db.records, db.delayed.Keys, t.uid, t);
    OldestIgnoresOthers(db.records, db.pending, t.uid, t);
  }

  lemma PushRefines(db: Redis, t: Task)
    requires Recorded(db) && Harmless(db, t)
    ensures Recorded(AfterPush(db, t))
    ensures Contents(AfterPush(db, t)) == TaskQueue.Push(Contents(db), t)
  {
    var stored := Store(db, t);
    StoreKeepsContents(db, t);
    OldestPush(stored.records, db.pending, t.uid);
  }

  /** A push that fails has queued the task or changed nothing that can be popped. */
  lemma FailedPushIsAllOrNothing(db: Redis, t: Task, whole: Redis, stored: Outcome, queued: Outcome)
    requires Recorded(db) && Recorded(whole) && Harmless(db, t)
    ensures var db' := Attempt(db, t, whole, stored, queued);
            Recorded(db') && (Contents(db') == Contents(db) || Contents(db') == Contents(whole))
  {
    StoreKeepsContents(db, t);
    hide Contents, Recorded;
  }

  /** A plain push refines the abstract push exactly when it does not overwrite the
      record of an entry that is still queued with different contents. */
  lemma PushRefinesIff(db: Redis, t: Task)
    requires Recorded(db)
    ensures Unexpired(AfterPush(db, t))
    ensures Contents(AfterPush(db, t)) == TaskQueue.Push(Contents(db), t) <==> Harmless(db, t)
  {
    if Harmless(db, t) {
      PushRefines(db, t);
    } else {
      OldestPush(AfterPush(db, t).records, db.pending, t.uid);
      if t.uid in db.pending {
        OverwrittenReady(db.records, db.pending, t);
        SnocDiffers(Oldest(AfterPush(db, t).records, db.pending), Oldest(db.records, db.pending), t);
      } else if t.uid in db.priority {
        OverwrittenBag(db.records, db.priority.Keys, t);
      } else {
        OverwrittenBag(db.records, db.delayed.Keys, t);
      }
    }
    hide Bag, Oldest;
  }

  lemma OverwrittenBag(records: map<Uid, Task>, keys: set<Uid>, t: Task)
    requires keys <= records.Keys && t.uid in keys && records[t.uid] != t
    requires forall v :: v in records ==> records[v].uid == v
    ensures Bag(records[t.uid := t], keys) != Bag(records, keys)
    ensures records[t.uid] in Bag(records, keys) && records[t.uid] !in Bag(records[t.uid := t], keys)
  {
    assert records[t.uid := t][t.uid] in Bag(records[t.uid := t], keys);
    assert t !in Bag(records, keys);
  }

  lemma SnocDiffers<T>(a: seq<T>, b: seq<T>, x: T)
    requires a != b
    ensures a + [x] != b + [x]
  {
    assert (a + [x])[..|a|] == a && (b + [x])[..|b|] == b;
  }

  lemma OverwrittenReady(records: map<Uid, Task>, pending: seq<Uid>, t: Task)
    requires (forall v :: v in pending ==> v in records) && t.uid in pending && records[t.uid] != t
    ensures Oldest(records[t.uid := t], pending) != Oldest(records, pending)
  {
    var i :| 0 <= i < |pending| && pending[i] == t.uid;
    assert Oldest(records, pending)[|pending| - 1 - i] == records[t.uid];
    assert Oldest(records[t.uid := t], pending)[|pending| - 1 - i] == t;
  }

  lemma PriorityGrows(db: Redis, u: Uid)
    requires Recorded(db) && u in db.records && u !in db.priority
    ensures var db' := db.(priority := db.priority[u := -db.records[u].priority]);
            Recorded(db') && Contents(db') == TaskQueue.PushPriority(Contents(db), db.records[u])
  {
    BagAdd(db.records, db.priority.Keys, u);
    assert db.priority[u := -db.records[u].priority].Keys == db.priority.Keys + {u};
    hide Bag, Oldest;
  }

  lemma PushPriorityRefines(db: Redis, t: Task)
    requires Recorded(db) && !Queued(db, t.uid)
    ensures Recorded(AfterPushPriority(db, t))
    ensures Contents(AfterPushPriority(db, t)) == TaskQueue.PushPriority(Contents(db), t)
  {
    var stored := Store(db, t);
    assert stored.records[t.uid] == t && t.uid !in stored.priority;
    assert AfterPushPriority(db, t) == stored.(priority := stored.priority[t.uid := -t.priority]);
    StoreKeepsContents(db, t);
    hide Contents, Recorded, Store, AfterPushPriority;
    PriorityGrows(stored, t.uid);
  }

  lemma DelayedGrows(db: Redis, u: Uid, score: real)
    requires Recorded(db) && u in db.records && u !in db.delayed
    ensures var db' := db.(delayed := db.delayed[u := score]);
            Recorded(db') && Contents(db') == TaskQueue.PushDelayed(Contents(db), db.records[u])
  {
    BagAdd(db.records, db.delayed.Keys, u);
    assert db.delayed[u := score].Keys == db.delayed.Keys + {u};
    hide Bag, Oldest;
  }

  lemma PushWithScoreRefines(db: Redis, t: Task, score: real)
    requires Recorded(db) && !Queued(db, t.uid)
    ensures var db' := Store(db, t).(delayed := db.delayed[t.uid := score]);
            Recorded(db') && Contents(db') == TaskQueue.PushDelayed(Contents(db), t)
  {
    StoreKeepsContents(db, t);
    DelayedGrows(Store(db, t), t.uid, score);
    hide Contents, Recorded;
  }

  lemma PushDelayedRefines(db: Redis, t: Task, delay: real, now: real)
    requires Recorded(db) && !Queued(db, t.uid)
    ensures Recorded(AfterPushDelayed(db, t, delay, now))
    ensures Contents(AfterPushDelayed(db, t, delay, now)) == TaskQueue.PushDelayed(Contents(db), t)
  {
    hide Contents, Recorded, Seconds;
    PushWithScoreRefines(db, t, Seconds(now) + delay);
  }

  /** A priority push refines the abstract one exactly when the uid is not in the priority
      set and the record of no entry that is still queued is overwritten. */
  lemma PushPriorityRefinesIff(db: Redis, t: Task)
    requires Recorded(db)
    ensures Unexpired(AfterPushPriority(db, t))
    ensures Contents(AfterPushPriority(db, t)) == TaskQueue.PushPriority(Contents(db), t)
       <==> t.uid !in db.priority && Harmless(db, t)
  {
    var db' := AfterPushPriority(db, t);
    if t.uid in db.priority {
      assert db'.priority.Keys == db.priority.Keys;
      SameKeysAddNothing(db.records, db.priority.Keys, t);
    } else if Harmless(db, t) {
      StoreKeepsContents(db, t);
      PriorityGrows(Store(db, t), t.uid);
    } else if t.uid in db.pending {
      OverwrittenReady(db.records, db.pending, t);
    } else {
      OverwrittenBag(db.records, db.delayed.Keys, t);
    }
    hide Bag, Oldest;
  }

  /** The same for a delayed push and the delayed set. */
  lemma PushDelayedRefinesIff(db: Redis, t: Task, delay: real, now: real)
    requires Recorded(db)
    ensures Unexpired(AfterPushDelayed(db, t, delay, now))
    ensures Contents(AfterPushDelayed(db, t, delay, now)) == TaskQueue.PushDelayed(Contents(db), t)
       <==> t.uid !in db.delayed && Harmless(db, t)
  {
    hide Seconds;
    var db' := AfterPushDelayed(db, t, delay, now);
    if t.uid in db.delayed {
      assert db'.delayed.Keys == db.delayed.Keys;
      SameKeysAddNothing(db.records, db.delayed.Keys, t);
    } else if Harmless(db, t) {
      StoreKeepsContents(db, t);
      DelayedGrows(Store(db, t), t.uid, Seconds(now) + delay);
    } else if t.uid in db.pending {
      OverwrittenReady(db.records, db.pending, t);
    } else {
      OverwrittenBag(db.records, db.priority.Keys, t);
    }
    hide Bag, Oldest;
  }

  lemma SameKeysAddNothing(records: map<Uid, Task>, keys: set<Uid>, t: Task)
    requires keys <= records.Keys && t.uid in keys
    requires forall v :: v in records ==> records[v].uid == v
    ensures Bag(records[t.uid := t], keys) != Bag(records, keys) + multiset{t}
  {
    if records[t.uid] == t {
      assert records[t.uid := t] == records;
      hide Bag;
      assert Bag(records, keys)[t] != (Bag(records, keys) + multiset{t})[t];
    } else {
      OverwrittenBag(records, keys, t);
    }
  }

  lemma PriorityPopRefines(db: Redis, u: Uid)
    requires Recorded(db) && MinScore(db.priority, u)
    ensures var db' := db.(priority := db.priority - {u}); var t := db.records[u];
            Recorded(db') && TaskQueue.CanPop(Contents(db), t) && Contents(db') == TaskQueue.AfterPop(Contents(db), t)
  {
    var t := db.records[u];
    BagRemove(db.records, db.priority.Keys, u);
    assert (db.priority - {u}).Keys == db.priority.Keys - {u};
    forall x | x in Contents(db).prio ensures x.priority <= t.priority {
      var v :| v in db.priority.Keys && db.records[v] == x;
      assert db.priority[u] <= db.priority[v];
    }
  }

  /** Main result: any answer of pop is a legal answer of the abstract queue, and the
      server is left with the abstract queue after that pop. */
  lemma PopRefines(db: Redis, r: Option<Task>, db': Redis)
    requires Recorded(db) && PopOutcome(db, r, db')
    ensures Recorded(db')
    ensures r.None? <==> TaskQueue.NothingReady(Contents(db))
    ensures r.None? ==> db' == db
    ensures r.Some? ==> TaskQueue.CanPop(Contents(db), r.value)
                        && Contents(db') == TaskQueue.AfterPop(Contents(db), r.value)
  {
    if db.priority != map[] {
      var u :| MinScore(db.priority, u) && db' == db.(priority := db.priority - {u})
               && r == if u in db.records then Some(db.records[u]) else None;
      PriorityPopRefines(db, u);
    } else {
      assert db.priority.Keys == {};
      if db.pending != [] {
        var oldest := Oldest(db.records, db.pending);
        assert oldest[1..] == Oldest(db.records, db'.pending);
      }
    }
  }

  /** From `db` to `db'` the entry of `u` was taken: a member of minimal score, or the tail
      of the list. */
  ghost predicate Chosen(db: Redis, u: Uid, db': Redis) {
    if db.priority != map[] then MinScore(db.priority, u) && db' == db.(priority := db.priority - {u})
    else db.pending != [] && u == db.pending[|db.pending| - 1] && db' == db.(pending := db.pending[..|db.pending| - 1])
  }

  lemma ChosenIsOne(db: Redis, u: Uid, v: Uid, db': Redis)
    requires Chosen(db, u, db') && Chosen(db, v, db')
    ensures u == v
  {
    if db.priority != map[] {
      assert v !in db'.priority && forall x :: x in db.priority && x != u ==> x in db'.priority;
    }
  }

  /** With records that may have expired: pop answers "nothing" exactly when nothing is
      ready, or the entry it took has no record any more.  In the second case the entry is
      gone, and the caller cannot tell it from an empty queue. */
  lemma PopAnswersNoneIff(db: Redis, r: Option<Task>, db': Redis)
    requires PopOutcome(db, r, db')
    ensures r.None? <==>
              (db.priority == map[] && db.pending == []) || exists u :: Chosen(db, u, db') && u !in db.records
    ensures r.Some? ==> exists u :: Chosen(db, u, db') && u in db.records && db.records[u] == r.value
  {
    if db.priority != map[] || db.pending != [] {
      var u :| Chosen(db, u, db') && r == if u in db.records then Some(db.records[u]) else None;
      if v :| Chosen(db, v, db') && v !in db.records { ChosenIsOne(db, u, v, db'); }
    }
  }

  // ----- Moving due tasks, with commands that may fail -----

  predicate IsDue(score: real, now: real) {
    0.0 <= score <= Seconds(now)
  }

  /** The loop over the due uids.  `os` says how its commands end, one by one, and the
      loop stops dead when they run out. */
  function MoveUids(db: Redis, us: seq<Uid>, os: seq<Outcome>): Redis
    decreases |us|
  {
    if us == [] || os == [] then db
    else
      var pushed := if os[0] == Refused then db else db.(pending := [us[0]] + db.pending);
      if os[0] != Done then MoveUids(pushed, us[1..], os[1..])
      else if |os| == 1 then pushed
      else
        var removed := if os[1] == Refused then pushed else pushed.(delayed := pushed.delayed - {us[0]});
        MoveUids(removed, us[1..], os[2..])
  }

  ghost predicate NoDuplicates(us: seq<Uid>) {
    forall i, j :: 0 <= i < j < |us| ==> us[i] != us[j]
  }

  /** What was delayed is still delayed with its score or is pending, only `us` can
      move, and what was pending stays in place at the tail. */
  ghost predicate NothingLost(db: Redis, db': Redis, us: seq<Uid>) {
    && (forall u :: u in db.delayed && u !in db'.delayed ==> u in us && u in db'.pending)
    && (forall u :: u in db'.delayed ==> u in db.delayed && db'.delayed[u] == db.delayed[u])
    && |db'.pending| >= |db.pending|
    && db'.pending[|db'.pending| - |db.pending|..] == db.pending
    && (forall i :: 0 <= i < |db'.pending| - |db.pending| ==> db'.pending[i] in us)
    && db'.priority == db.priority && db'.records == db.records
  }

  lemma NothingLostChains(db: Redis, mid: Redis, end: Redis, us: seq<Uid>)
    requires us != [] && NothingLost(db, mid, us) && NothingLost(mid, end, us[1..])
    ensures NothingLost(db, end, us)
  {
  }

  lemma LPushLosesNothing(db: Redis, us: seq<Uid>)
    requires us != []
    ensures NothingLost(db, db.(pending := [us[0]] + db.pending), us)
    ensures NothingLost(db, db.(pending := [us[0]] + db.pending, delayed := db.delayed - {us[0]}), us)
  {
    assert ([us[0]] + db.pending)[1..] == db.pending;
  }

  lemma NothingMoves(db: Redis, us: seq<Uid>)
    ensures NothingLost(db, db, us)
  {
  }

  /** Main result about the mover: wherever it stops, and whichever commands are
      refused or lose their reply, nothing is lost and nothing else moves. */
  lemma {:induction false} MoveLosesNothing(db: Redis, us: seq<Uid>, os: seq<Outcome>)
    ensures NothingLost(db, MoveUids(db, us, os), us)
    decreases |us|
  {
    hide NothingLost;
    NothingMoves(db, us);
    if us != [] && os != [] {
      LPushLosesNothing(db, us);
      var pushed := if os[0] == Refused then db else db.(pending := [us[0]] + db.pending);
      if os[0] != Done {
        MoveLosesNothing(pushed, us[1..], os[1..]);
        NothingLostChains(db, pushed, MoveUids(db, us, os), us);
      } else if |os| > 1 {
        var removed := if os[1] == Refused then pushed else pushed.(delayed := pushed.delayed - {us[0]});
        MoveLosesNothing(removed, us[1..], os[2..]);
        NothingLostChains(db, removed, MoveUids(db, us, os), us);
      }
    }
  }

  function RecordsOf(records: map<Uid, Task>, us: seq<Uid>): (ts: seq<Task>)
    requires forall u :: u in us ==> u in records
    ensures |ts| == |us|
  {
    if us == [] then [] else [records[us[0]]] + RecordsOf(records, us[1..])
  }

  /** From `db` to `db'` the abstract queue has released exactly `moved`. */
  ghost predicate Released(db: Redis, db': Redis, moved: seq<Task>) {
    && Recorded(db) && Recorded(db')
    && multiset(moved) <= Contents(db).delayed
    && Contents(db') == TaskQueue.Release(Contents(db), moved)
  }

  lemma MoveOneRefines(db: Redis, u: Uid)
    requires Recorded(db) && u in db.delayed
    ensures Released(db, db.(pending := [u] + db.pending, delayed := db.delayed - {u}), [db.records[u]])
  {
    OldestPush(db.records, db.pending, u);
    BagRemove(db.records, db.delayed.Keys, u);
    assert (db.delayed - {u}).Keys == db.delayed.Keys - {u};
    assert multiset([db.records[u]]) == multiset{db.records[u]};
  }

  lemma ReleaseTwice(q: TaskQueue.Queue, t: Task, ts: seq<Task>)
    requires t in q.delayed && multiset(ts) <= q.delayed - multiset{t}
    ensures multiset([t] + ts) <= q.delayed
    ensures TaskQueue.Release(TaskQueue.Release(q, [t]), ts) == TaskQueue.Release(q, [t] + ts)
  {
    assert multiset([t]) == multiset{t} && multiset([t] + ts) == multiset{t} + multiset(ts);
    assert q.ready + [t] + ts == q.ready + ([t] + ts);
    assert q.delayed - multiset{t} - multiset(ts) == q.delayed - (multiset{t} + multiset(ts));
  }

  lemma ReleasedHead(db: Redis, mid: Redis, end: Redis, t: Task, ts: seq<Task>)
    requires Released(db, mid, [t]) && Released(mid, end, ts)
    ensures Released(db, end, [t] + ts)
  {
    assert multiset([t]) == multiset{t};
    assert t in multiset([t]);
    ReleaseTwice(Contents(db), t, ts);
  }

  ghost predicate AllDelayed(db: Redis, us: seq<Uid>) {
    NoDuplicates(us) && forall u :: u in us ==> u in db.delayed
  }

  lemma RestStillDelayed(db: Redis, us: seq<Uid>)
    requires us != [] && AllDelayed(db, us)
    ensures AllDelayed(db.(pending := [us[0]] + db.pending, delayed := db.delayed - {us[0]}), us[1..])
  {
  }

  ghost predicate AllDone(os: seq<Outcome>) {
    forall i :: 0 <= i < |os| ==> os[i] == Done
  }

  lemma MoveHead(db: Redis, us: seq<Uid>, os: seq<Outcome>)
    requires us != [] && |os| >= 2 && os[0] == Done && os[1] == Done
    ensures MoveUids(db, us, os)
         == MoveUids(db.(pending := [us[0]] + db.pending, delayed := db.delayed - {us[0]}), us[1..], os[2..])
  {
  }

  /** When every command succeeds, a pass is exactly the abstract release of the due
      tasks, in the order in which the sorted set listed them. */
  lemma {:induction false} MoveRefinesRelease(db: Redis, us: seq<Uid>, os: seq<Outcome>)
    requires Recorded(db) && AllDelayed(db, us)
    requires |os| >= 2 * |us| && AllDone(os)
    ensures Released(db, MoveUids(db, us, os), RecordsOf(db.records, us))
    decreases |us|
  {
    if us == [] {
      NothingReleased(db);
    } else {
      var mid := db.(pending := [us[0]] + db.pending, delayed := db.delayed - {us[0]});
      RestStillDelayed(db, us);
      MoveOneRefines(db, us[0]);
      MoveRefinesRelease(mid, us[1..], os[2..]);
      MoveStepRefines(db, us, os, mid);
    }
  }

  lemma NothingReleased(db: Redis)
    requires Recorded(db)
    ensures Released(db, db, [])
  {
  }

  lemma MoveStepRefines(db: Redis, us: seq<Uid>, os: seq<Outcome>, mid: Redis)
    requires Recorded(db) && AllDelayed(db, us) && us != [] && |os| >= 2 * |us| && AllDone(os)
    requires mid == db.(pending := [us[0]] + db.pending, delayed := db.delayed - {us[0]})
    requires Released(mid, MoveUids(mid, us[1..], os[2..]), RecordsOf(db.records, us[1..]))
    ensures Released(db, MoveUids(db, us, os), RecordsOf(db.records, us))
  {
    MoveHead(db, us, os);
    MoveOneRefines(db, us[0]);
    ReleasedHead(db, mid, MoveUids(db, us, os), db.records[us[0]], RecordsOf(db.records, us[1..]));
  }

  /** With whole-second clocks on both sides a task that is pushed with a delay is due less
      than one second early, and at the latest one second late (unless its score is
      negative: the query starts at zero). */
  lemma TruncationIsUnderASecond(db: Redis, t: Task, delay: real, pushed: real, now: real)
    ensures var delayed := AfterPushDelayed(db, t, delay, pushed).delayed;
            && t.uid in delayed
            && (IsDue(delayed[t.uid], now) ==> now > pushed + delay - 1.0)
            && (now >= pushed + delay + 1.0 && delayed[t.uid] >= 0.0 ==> IsDue(delayed[t.uid], now))
    ensures pushed >= 0.0 && delay >= 0.0 ==> AfterPushDelayed(db, t, delay, pushed).delayed[t.uid] >= 0.0
  {
  }

  /** The early release does happen: pushed at 0.75 s for one second, due at 1.0 s. */
  lemma TruncationCanBeEarly(db: Redis, t: Task)
    ensures IsDue(AfterPushDelayed(db, t, 1.0, 0.75).delayed[t.uid], 1.0) && 1.0 < 0.75 + 1.0
  {
  }

  class RedisQueue {
    var db: Redis

    constructor ()
      ensures db == EMPTY
    {
      db := EMPTY;
    }

    /** `stored` and `queued` say how its two commands end. */
    method Push(t: Task, stored: Outcome, queued: Outcome) returns (ok: bool)
      modifies this
      ensures db == Attempt(old(db), t, AfterPush(old(db), t), stored, queued) && (ok <==> stored == queued == Done)
    {
      ok := StoreTask(t, stored);
      if !ok { return; }
      if queued != Refused { db := db.(pending := [t.uid] + db.pending); }
      ok := queued == Done;
    }

    method StoreTask(t: Task, stored: Outcome) returns (ok: bool)
      modifies this
      ensures db == (if stored == Refused then old(db) else Store(old(db), t)) && (ok <==> stored == Done)
    {
      if stored != Refused { db := db.(records := db.records[t.uid := t]); }
      ok := stored == Done;
    }

    method PushPriority(t: Task, stored: Outcome, queued: Outcome) returns (ok: bool)
      modifies this
      ensures db == Attempt(old(db), t, AfterPushPriority(old(db), t), stored, queued)
              && (ok <==> stored == queued == Done)
    {
      ok := StoreTask(t, stored);
      if !ok { return; }
      if queued != Refused { db := db.(priority := db.priority[t.uid := -t.priority]); }
      ok := queued == Done;
    }

    method PushDelayed(t: Task, delay: real, now: real, stored: Outcome, queued: Outcome) returns (ok: bool)
      modifies this
      ensures db == Attempt(old(db), t, AfterPushDelayed(old(db), t, delay, now), stored, queued)
      ensures ok <==> stored == queued == Done
      ensures ok ==> db.delayed == old(db).delayed[t.uid := now.Floor as real + delay] && db.records[t.uid] == t
    {
      ok := StoreTask(t, stored);
      if !ok { return; }
      var score := Seconds(now) + delay;
      if queued != Refused { db := db.(delayed := db.delayed[t.uid := score]); }
      ok := queued == Done;
    }

    /** The member of lowest score, if any, is removed from the priority set. */
    method ZPopMin() returns (r: Option<Uid>)
      modifies this
      ensures r.None? <==> old(db).priority == map[]
      ensures r.None? ==> db == old(db)
      ensures r.Some? ==>
                MinScore(old(db).priority, r.value) && db == old(db).(priority := old(db).priority - {r.value})
    {
      if db.priority == map[] { return None; }
      var best :| best in db.priority;
      var rest := db.priority.Keys - {best};
      while rest != {}
        invariant best in db.priority && rest <= db.priority.Keys && db == old(db)
        invariant forall v :: v in db.priority && v !in rest ==> db.priority[best] <= db.priority[v]
        decreases |rest|
      {
        var u :| u in rest;
        if db.priority[u] < db.priority[best] { best := u; }
        rest := rest - {u};
      }
      db := db.(priority := db.priority - {best});
      r := Some(best);
    }

    method Pop() returns (r: Option<Task>)
      modifies this
      ensures PopOutcome(old(db), r, db)
    {
      var first := ZPopMin();
      if first.Some? {
        var u := first.value;
        r := if u in db.records then Some(db.records[u]) else None;
      } else if db.pending != [] {
        var u := db.pending[|db.pending| - 1];
        db := db.(pending := db.pending[..|db.pending| - 1]);
        r := if u in db.records then Some(db.records[u]) else None;
      } else {
        r := None;
      }
    }

    /** The uids with a score between zero and the current second, each once. */
    method ZRangeByScore(now: real) returns (us: seq<Uid>)
      ensures NoDuplicates(us)
      ensures forall u :: u in us <==> u in db.delayed && IsDue(db.delayed[u], now)
      ensures forall u :: u in us <==> u in db.delayed && 0.0 <= db.delayed[u] <= now.Floor as real
    {
      us := [];
      var rest := db.delayed.Keys;
      while rest != {}
        invariant rest <= db.delayed.Keys && NoDuplicates(us)
        invariant forall u :: u in us <==> u in db.delayed && u !in rest && IsDue(db.delayed[u], now)
        decreases |rest|
      {
        var u :| u in rest;
        rest := rest - {u};
        if IsDue(db.delayed[u], now) { us := us + [u]; }
      }
    }

    /** One pass of the mover over `outcomes`, the first of which is the query's. */
    method MoveDueDelayed(now: real, outcomes: seq<Outcome>) returns (ghost us: seq<Uid>)
      modifies this
      ensures NoDuplicates(us)
      ensures outcomes != [] && outcomes[0] == Done ==>
                (forall u :: u in us <==> u in old(db).delayed && IsDue(old(db).delayed[u], now))
                && db == MoveUids(old(db), us, outcomes[1..])
      ensures outcomes == [] || outcomes[0] != Done ==> us == [] && db == old(db)
    {
      if outcomes == [] || outcomes[0] != Done { return []; }
      var due := ZRangeByScore(now);
      us := due;
      var k := 1;
      for i := 0 to |due|
        invariant 1 <= k <= |outcomes|
        invariant MoveUids(old(db), due, outcomes[1..]) == MoveUids(db, due[i..], outcomes[k..])
      {
        assert due[i..][1..] == due[i + 1..];
        if k >= |outcomes| { return; }
        assert outcomes[k..][1..] == outcomes[k + 1..];
        var pushed := outcomes[k];
        k := k + 1;
        if pushed != Refused {
          db := db.(pending := [due[i]] + db.pending);
        }
        if pushed != Done { continue; }
        if k >= |outcomes| { return; }
        assert outcomes[k - 1..][2..] == outcomes[k + 1..];
        var removed := outcomes[k];
        k := k + 1;
        if removed != Refused {
          db := db.(delayed := db.delayed - {due[i]});
        }
      }
    }
  }
}
