/** The resource ledger, over every run of the lifecycle machine: the rows that are
    Running never use more CPU, memory or slots than the scheduler has, although
    completions, retries and cancellations interleave with a tick's dispatches. */
module Ledger {
  import opened Sums
  import opened Tasks
  import opened TaskQueue
  import opened Lifecycle
  import opened DispatchBound

  datatype Resource = Cpu | Mem | Slot

  function Limit(r: Resource, t: Task): int {
    match r
    case Cpu => t.cpuLimit
    case Mem => t.memoryLimit
    case Slot => 1
  }

  function Total(c: Config, r: Resource): nat {
    match r
    case Cpu => c.totalCpu
    case Mem => c.totalMem
    case Slot => c.maxConcurrent
  }

  function Free(b: Budget, r: Resource): int {
    match r
    case Cpu => b.cpu
    case Mem => b.mem
    case Slot => b.slots
  }

  /** What a row occupies. */
  function Use(r: Resource, t: Task): nat {
    if t.status == Running && Limit(r, t) > 0 then Limit(r, t) else 0
  }

  ghost function ByUse(r: Resource): Task -> nat {
    (t: Task) => Use(r, t)
  }

  ghost function Used(r: Resource, rows: map<Uid, Task>): nat {
    SumMap(ByUse(r), rows)
  }

  lemma UsedUpdate(r: Resource, rows: map<Uid, Task>, u: Uid, t: Task)
    ensures Used(r, rows[u := t]) <= Used(r, rows) + Use(r, t)
  {
    SumMapUpdate(ByUse(r), rows, u, t);
  }

  /** During a tick the ledger also covers what the tick may still hand out. */
  ghost predicate Covered(c: Config, s: State, r: Resource) {
    match s.tick
    case None => Used(r, s.rows) <= Total(c, r)
    case Some(b) => Free(b, r) >= 0 && Used(r, s.rows) + Free(b, r) <= Total(c, r)
  }

  // ----- Everything except a dispatch leaves the used amount as it is or lowers it -----

  lemma CompleteTaskFrees(s: State, t: Task, result: TaskResult, now: int, r: Resource)
    requires t.uid in s.rows
    ensures Used(r, CompleteTask(s, t, result, now).rows) <= Used(r, s.rows)
    ensures CompleteTask(s, t, result, now).tick == s.tick
  {
    var rows' := CompleteTask(s, t, result, now).rows;
    if rows' != s.rows {
      assert rows' == s.rows[t.uid := rows'[t.uid]];
      UsedUpdate(r, s.rows, t.uid, rows'[t.uid]);
    }
  }

  lemma FailTaskFrees(s: State, t: Task, msg: string, now: int, r: Resource)
    requires t.uid in s.rows
    ensures Used(r, FailTask(s, t, msg, now).rows) <= Used(r, s.rows)
    ensures FailTask(s, t, msg, now).tick == s.tick
  {
    var rows' := FailTask(s, t, msg, now).rows;
    if rows' != s.rows {
      assert rows' == s.rows[t.uid := rows'[t.uid]];
      UsedUpdate(r, s.rows, t.uid, rows'[t.uid]);
    }
  }

  lemma {:induction false} SweepFrees(s: State, ts: seq<Task>, now: int, r: Resource)
    requires StillRows(s.rows, ts)
    ensures Used(r, FailTimedOut(s, ts, now).rows) <= Used(r, s.rows)
    ensures FailTimedOut(s, ts, now).tick == s.tick
    decreases |ts|
  {
    if ts != [] {
      FailTaskFrees(s, ts[0], TIMED_OUT, now, r);
      SweepKeepsRest(s, ts, now);
      SweepFrees(if TimedOut(ts[0], now) then FailTask(s, ts[0], TIMED_OUT, now) else s, ts[1..], now, r);
    }
  }

  lemma CancelFrees(s: State, uid: Uid, r: Resource)
    requires WellFormed(s)
    ensures Used(r, Cancel(s, uid).rows) <= Used(r, s.rows)
  {
    if uid in s.rows && s.rows[uid].TransitionTo(Canceled).Ok? {
      UsedUpdate(r, s.rows, uid, s.rows[uid].(status := Canceled));
    }
  }

  lemma CreateFrees(s: State, t: Task, r: Resource)
    requires t.status == Created
    ensures Used(r, Create(s, t).rows) <= Used(r, s.rows)
  {
    UsedUpdate(r, s.rows, t.uid, t);
  }

  // ----- A tick starts from the true amounts -----

  function LimitsOf(r: Resource, ts: seq<Task>): int {
    if ts == [] then 0 else Limit(r, ts[0]) + LimitsOf(r, ts[1..])
  }

  lemma {:induction false} LimitsAreSums(ts: seq<Task>)
    ensures LimitsOf(Cpu, ts) == CpuOf(ts) && LimitsOf(Mem, ts) == MemOf(ts) && LimitsOf(Slot, ts) == |ts|
    decreases |ts|
  {
    if ts != [] { LimitsAreSums(ts[1..]); }
  }

  ghost predicate KeyedByUid(rows: map<Uid, Task>) {
    forall u :: u in rows ==> rows[u].uid == u
  }

  /** A snapshot's limits add up to exactly what the table's Running rows use. */
  lemma {:induction false} SnapshotIsExact(rows: map<Uid, Task>, ts: seq<Task>, r: Resource)
    requires KeyedByUid(rows) && IsSnapshot(rows, ts) && forall t :: t in ts ==> Limit(r, t) >= 0
    ensures LimitsOf(r, ts) == Used(r, rows)
    decreases |ts|
  {
    if ts == [] {
      NothingUsed(rows, r);
    } else {
      var u := ts[0].uid;
      SumMapRemove(ByUse(r), rows, u);
      SnapshotTail(rows, ts);
      SnapshotIsExact(rows - {u}, ts[1..], r);
    }
  }

  lemma {:induction false} NothingUsed(rows: map<Uid, Task>, r: Resource)
    requires forall u :: u in rows ==> rows[u].status != Running
    ensures Used(r, rows) == 0
    decreases |rows|
  {
    if rows != map[] {
      var u :| u in rows;
      SumMapRemove(ByUse(r), rows, u);
      NothingUsed(rows - {u}, r);
    }
  }

  lemma SnapshotTail(rows: map<Uid, Task>, ts: seq<Task>)
    requires KeyedByUid(rows) && IsSnapshot(rows, ts) && ts != []
    ensures IsSnapshot(rows - {ts[0].uid}, ts[1..]) && KeyedByUid(rows - {ts[0].uid})
  {
  }

  lemma SnapshotIsGood(s: State, snapshot: seq<Task>, r: Resource)
    requires WellFormed(s) && IsSnapshot(s.rows, snapshot)
    ensures StillRows(s.rows, snapshot) && KeyedByUid(s.rows)
    ensures forall t :: t in snapshot ==> Limit(r, t) >= 0
  {
  }

  lemma TickBeginCovered(c: Config, s: State, snapshot: seq<Task>, now: int, r: Resource)
    requires WellFormed(s) && s.tick.None? && IsSnapshot(s.rows, snapshot) && Covered(c, s, r)
    ensures Covered(c, TickBegin(c, s, snapshot, now), r)
  {
    SnapshotIsGood(s, snapshot, r);
    SnapshotIsExact(s.rows, snapshot, r);
    LimitsAreSums(snapshot);
    SweepFrees(s, snapshot, now, r);
  }

  lemma TickPopCovered(c: Config, s: State, t: Task, node: Option<NodeId>, now: int, r: Resource)
    requires WellFormed(s) && Enabled(s, ETickPop(t, node, now)) && Covered(c, s, r)
    ensures Covered(c, TickPop(s, t, node, now), r)
  {
    PopKeepsWellFormed(s, t);
    var popped := s.(queue := AfterPop(s.queue, t));
    if CanAllocate(t, s.tick.value.cpu, s.tick.value.mem) {
      DispatchSucceeds(popped, t, node, now);
      UsedUpdate(r, s.rows, t.uid, RunningCopy(t, node, now));
    }
  }

  lemma RemoteReportFrees(s: State, uid: Uid, result: TaskResult, now: int, r: Resource)
    requires WellFormed(s)
    ensures Used(r, RemoteReport(s, uid, result, now).rows) <= Used(r, s.rows)
    ensures RemoteReport(s, uid, result, now).tick == s.tick
  {
    if uid in s.rows {
      CompleteTaskFrees(s.(pulled := s.pulled - multiset{uid}), s.rows[uid], result, now, r);
    }
  }

  lemma StepKeepsCovered(c: Config, s: State, e: Event, r: Resource)
    requires WellFormed(s) && Enabled(s, e) && Covered(c, s, r)
    ensures Covered(c, Apply(c, s, e), r)
  {
    match e {
      case ECreate(t) => CreateFrees(s, t, r);
      case ETickBegin(snapshot, now) => TickBeginCovered(c, s, snapshot, now, r);
      case ETickPop(t, node, now) => TickPopCovered(c, s, t, node, now, r);
      case ELocalDone(t, result, now) => CompleteTaskFrees(s.(locals := s.locals - multiset{t}), t, result, now, r);
      case ERemoteReport(uid, result, now) => RemoteReportFrees(s, uid, result, now, r);
      case ECancel(uid) => CancelFrees(s, uid, r);
      case EPull(_) =>
      case ERelease(_) =>
      case ETickEnd =>
    }
  }

  lemma {:induction false} RunKeepsCovered(c: Config, s: State, es: seq<Event>, r: Resource)
    requires WellFormed(s) && ValidRun(c, s, es) && Covered(c, s, r)
    ensures Covered(c, Run(c, s, es), r)
    decreases |es|
  {
    if es != [] {
      StepKeepsWellFormed(c, s, es[0]);
      StepKeepsCovered(c, s, es[0], r);
      RunKeepsCovered(c, Apply(c, s, es[0]), es[1..], r);
    }
  }

  /** Main result: in every state of every run, whether or not a tick is under way,
      the Running rows fit into the scheduler's CPU, memory and concurrency limits. */
  lemma RunningRowsFit(c: Config, es: seq<Event>)
    requires ValidRun(c, INITIAL, es)
    ensures Used(Cpu, Run(c, INITIAL, es).rows) <= c.totalCpu
    ensures Used(Mem, Run(c, INITIAL, es).rows) <= c.totalMem
    ensures Used(Slot, Run(c, INITIAL, es).rows) <= c.maxConcurrent
  {
    InitiallyWithinBound("");
    forall r ensures Used(r, Run(c, INITIAL, es).rows) <= Total(c, r) {
      NothingUsed(INITIAL.rows, r);
      RunKeepsCovered(c, INITIAL, es, r);
    }
    assert Total(c, Cpu) == c.totalCpu && Total(c, Mem) == c.totalMem && Total(c, Slot) == c.maxConcurrent;
  }
}
