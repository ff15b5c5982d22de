/** When the documented retry promise does hold.  A task with n retries is started at
    most n + 1 times in every run in which a failure is only ever processed for the
    one run that is live: no remote failure report for a row that is not Running or
    that a local executor is running, and no timeout of a row that a local executor
    is still running. */
module RetryPromise {
  import opened Sums
  import opened Tasks
  import opened TaskQueue
  import opened Lifecycle
  import opened DispatchBound

  ghost predicate Orderly(s: State, e: Event) {
    match e
    case ETickBegin(snapshot, now) =>
      forall t :: t in snapshot && TimedOut(t, now) ==> !Holds(s.locals, t.uid)
    case ERemoteReport(uid, r, _) =>
      r.error.Some? && uid in s.rows ==> s.rows[uid].status == Running && !Holds(s.locals, uid)
    case _ => true
  }

  ghost predicate OrderlyRun(c: Config, s: State, es: seq<Event>)
    requires ValidRun(c, s, es)
    decreases |es|
  {
    es == [] || (Orderly(s, es[0]) && OrderlyRun(c, Apply(c, s, es[0]), es[1..]))
  }

  // ----- Starts still to come, counting every live copy once -----

  function QueuedStarts(u: Uid, t: Task): nat {
    if t.uid == u then RetriesLeft(t) + 1 else 0
  }

  function RunningStarts(u: Uid, t: Task): nat {
    if t.uid == u then RetriesLeft(t) else 0
  }

  /** A Running row counts only when no local executor stands for it. */
  ghost function RowStarts(rows: map<Uid, Task>, locals: multiset<Task>, u: Uid): nat {
    if u in rows && rows[u].status == Running && !Holds(locals, u) then RetriesLeft(rows[u]) else 0
  }

  ghost function ByQueuedStarts(u: Uid): Task -> nat {
    (t: Task) => QueuedStarts(u, t)
  }

  ghost function ByRunningStarts(u: Uid): Task -> nat {
    (t: Task) => RunningStarts(u, t)
  }

  ghost function QueueStarts(u: Uid, m: multiset<Task>): nat {
    Sum(ByQueuedStarts(u), m)
  }

  ghost function FlightStarts(u: Uid, m: multiset<Task>): nat {
    Sum(ByRunningStarts(u), m)
  }

  lemma QueueStartsAdd(u: Uid, m: multiset<Task>, t: Task)
    ensures QueueStarts(u, m + multiset{t}) == QueuedStarts(u, t) + QueueStarts(u, m)
  {
    SumAdd(ByQueuedStarts(u), m, t);
  }

  lemma QueueStartsRemove(u: Uid, m: multiset<Task>, t: Task)
    requires t in m
    ensures QueueStarts(u, m) == QueuedStarts(u, t) + QueueStarts(u, m - multiset{t})
  {
    SumRemove(ByQueuedStarts(u), m, t);
  }

  lemma FlightStartsAdd(u: Uid, m: multiset<Task>, t: Task)
    ensures FlightStarts(u, m + multiset{t}) == RunningStarts(u, t) + FlightStarts(u, m)
  {
    SumAdd(ByRunningStarts(u), m, t);
  }

  lemma FlightStartsRemove(u: Uid, m: multiset<Task>, t: Task)
    requires t in m
    ensures FlightStarts(u, m) == RunningStarts(u, t) + FlightStarts(u, m - multiset{t})
  {
    SumRemove(ByRunningStarts(u), m, t);
  }

  ghost function CopyStarts(s: State, u: Uid): nat {
    s.started[u] + QueueStarts(u, Copies(s.queue)) + FlightStarts(u, s.locals)
  }

  ghost function Starts(s: State, u: Uid): nat {
    CopyStarts(s, u) + RowStarts(s.rows, s.locals, u)
  }

  // ----- The effect of each handler -----

  lemma RequeueStarts(s: State, again: Task, u: Uid)
    requires again.uid in s.rows && again.status == Pending
    ensures var s' := Save(s, again).(queue := PushDelayed(s.queue, again));
            Starts(s', u) == CopyStarts(s, u) + QueuedStarts(u, again) + 
              (if again.uid == u then 0 else RowStarts(s.rows, s.locals, u))
  {
    PushCopies(s.queue, again);
    QueueStartsAdd(u, Copies(s.queue), again);
  }

  lemma SettleStarts(s: State, t: Task, u: Uid)
    requires t.uid in s.rows && t.status != Running
    ensures Starts(Save(s, t), u) == CopyStarts(s, u) + (if t.uid == u then 0 else RowStarts(s.rows, s.locals, u))
  {
  }

  /** Failing a running copy that nothing else stands for any more. */
  lemma FailTaskStarts(s: State, t: Task, msg: string, now: int, u: Uid)
    requires GoodCopy(s.rows, t) && t.status == Running
    ensures Starts(FailTask(s, t, msg, now), u)
         <= CopyStarts(s, u) + (if t.uid == u then RunningStarts(u, t) else RowStarts(s.rows, s.locals, u))
  {
    if t.CanRetry() {
      var again := Retried(t, msg);
      assert FailTask(s, t, msg, now) == Save(s, again).(queue := PushDelayed(s.queue, again));
      RequeueStarts(s, again, u);
    } else {
      var failed := t.(errorMessage := msg, finishedAt := Some(now), status := Failed);
      assert FailTask(s, t, msg, now) == Save(s, failed);
      SettleStarts(s, failed, u);
    }
  }

  lemma CompleteTaskStarts(s: State, t: Task, r: TaskResult, now: int, u: Uid)
    requires GoodCopy(s.rows, t) && t.status == Running
    ensures Starts(CompleteTask(s, t, r, now), u)
         <= CopyStarts(s, u) + (if t.uid == u then RunningStarts(u, t) else RowStarts(s.rows, s.locals, u))
  {
    var reported := t.(stdout := r.stdout, stderr := r.stderr, finishedAt := Some(now));
    assert RunningStarts(u, reported) == RunningStarts(u, t);
    if r.error.Some? {
      var msg := if r.timedOut then TIMED_OUT else r.error.value;
      assert CompleteTask(s, t, r, now) == FailTask(s, reported, msg, now);
      FailTaskStarts(s, reported, msg, now, u);
    } else {
      var done := reported.(exitCode := Some(r.exitCode), status := Success);
      assert CompleteTask(s, t, r, now) == Save(s, done);
      SettleStarts(s, done, u);
    }
  }

  lemma LocalDoneStarts(s: State, t: Task, r: TaskResult, now: int, u: Uid)
    requires WellFormed(s) && t in s.locals
    ensures Starts(LocalDone(s, t, r, now), u) <= Starts(s, u)
  {
    var left := s.(locals := s.locals - multiset{t});
    FlightStartsRemove(u, s.locals, t);
    CompleteTaskStarts(left, t, r, now, u);
    if t.uid != u {
      OthersStillRun(s, left, t, u);
    }
  }

  lemma OthersStillRun(s: State, left: State, t: Task, u: Uid)
    requires left == s.(locals := s.locals - multiset{t}) && t.uid != u
    ensures RowStarts(left.rows, left.locals, u) == RowStarts(s.rows, s.locals, u)
  {
  }

  /** A success report for a row that is not Running changes nothing. */
  lemma LateSuccessIsRefused(s: State, t: Task, r: TaskResult, now: int)
    requires t.status != Running && r.error.None?
    ensures CompleteTask(s, t, r, now) == s
  {
  }

  lemma RunningRowStarts(s: State, r: TaskResult, now: int, uid: Uid, u: Uid)
    requires WellFormed(s) && uid in s.rows && s.rows[uid].status == Running
    requires r.error.Some? ==> !Holds(s.locals, uid)
    ensures Starts(CompleteTask(s, s.rows[uid], r, now), u) <= Starts(s, u)
  {
    var t := s.rows[uid];
    if r.error.Some? {
      CompleteTaskStarts(s, t, r, now, u);
    } else {
      var done := t.(stdout := r.stdout, stderr := r.stderr, finishedAt := Some(now), exitCode := Some(r.exitCode),
          status := Success);
      assert CompleteTask(s, t, r, now) == Save(s, done);
      SettleStarts(s, done, u);
    }
  }

  lemma RemoteReportStarts(s: State, uid: Uid, r: TaskResult, now: int, u: Uid)
    requires WellFormed(s) && Orderly(s, ERemoteReport(uid, r, now))
    ensures Starts(RemoteReport(s, uid, r, now), u) <= Starts(s, u)
  {
    if uid in s.rows {
      var left := s.(pulled := s.pulled - multiset{uid});
      assert RemoteReport(s, uid, r, now) == CompleteTask(left, left.rows[uid], r, now);
      if s.rows[uid].status == Running {
        RunningRowStarts(left, r, now, uid, u);
      } else {
        LateSuccessIsRefused(left, left.rows[uid], r, now);
      }
    }
  }

  lemma SweepOne(s: State, t: Task, now: int, u: Uid)
    requires WellFormed(s) && t.uid in s.rows && s.rows[t.uid] == t && t.status == Running
    requires TimedOut(t, now) ==> !Holds(s.locals, t.uid)
    ensures var next := if TimedOut(t, now) then FailTask(s, t, TIMED_OUT, now) else s;
            WellFormed(next) && next.locals == s.locals && Starts(next, u) <= Starts(s, u)
  {
    FailTaskKeepsWellFormed(s, t, TIMED_OUT, now);
    if TimedOut(t, now) {
      FailTaskStarts(s, t, TIMED_OUT, now, u);
    }
  }

  lemma {:induction false} SweepStarts(s: State, ts: seq<Task>, now: int, u: Uid)
    requires WellFormed(s) && StillRows(s.rows, ts)
    requires forall t :: t in ts ==> t.status == Running && (TimedOut(t, now) ==> !Holds(s.locals, t.uid))
    ensures Starts(FailTimedOut(s, ts, now), u) <= Starts(s, u)
    decreases |ts|
  {
    if ts != [] {
      var next := if TimedOut(ts[0], now) then FailTask(s, ts[0], TIMED_OUT, now) else s;
      SweepOne(s, ts[0], now, u);
      SweepKeepsRest(s, ts, now);
      SweepStarts(next, ts[1..], now, u);
    }
  }

  lemma PopStarts(s: State, t: Task, u: Uid)
    requires CanPop(s.queue, t)
    ensures Starts(s.(queue := AfterPop(s.queue, t)), u) + QueuedStarts(u, t) == Starts(s, u)
  {
    PopCopies(s.queue, t);
    QueueStartsRemove(u, Copies(s.queue), t);
  }

  lemma TickPopStarts(s: State, t: Task, node: Option<NodeId>, now: int, u: Uid)
    requires WellFormed(s) && s.tick.Some? && CanPop(s.queue, t)
    ensures Starts(TickPop(s, t, node, now), u) <= Starts(s, u)
  {
    var popped := s.(queue := AfterPop(s.queue, t));
    PopKeepsWellFormed(s, t);
    PopStarts(s, t, u);
    if CanAllocate(t, s.tick.value.cpu, s.tick.value.mem) {
      DispatchStarts(popped, t, node, now, u);
    } else {
      PushCopies(popped.queue, t);
      QueueStartsAdd(u, Copies(popped.queue), t);
    }
  }

  /** Writing a running row of `run.uid`: the row counts unless the run is local. */
  lemma RunningRow(rows: map<Uid, Task>, locals: multiset<Task>, run: Task, u: Uid)
    ensures run.uid != u ==> RowStarts(rows[run.uid := run], locals, u) == RowStarts(rows, locals, u)
    ensures RowStarts(rows[run.uid := run], locals + multiset{run}, u) <= RowStarts(rows, locals, u)
    ensures run.uid == u ==> RowStarts(rows[run.uid := run], locals, u) <= RunningStarts(u, run)
  {
  }

  lemma DispatchStarts(s: State, t: Task, node: Option<NodeId>, now: int, u: Uid)
    requires GoodCopy(s.rows, t) && Waiting(t)
    ensures Starts(Dispatch(s, t, node, now), u) <= Starts(s, u) + QueuedStarts(u, t)
  {
    var run := RunningCopy(t, node, now);
    var s' := Dispatch(s, t, node, now);
    DispatchSucceeds(s, t, node, now);
    assert RunningStarts(u, run) == RunningStarts(u, t);
    RunningRow(s.rows, s.locals, run, u);
    FlightStartsAdd(u, s.locals, run);
    assert s'.rows == s.rows[run.uid := run];
  }

  lemma CancelStarts(s: State, uid: Uid, u: Uid)
    requires WellFormed(s)
    ensures Starts(Cancel(s, uid), u) <= Starts(s, u)
  {
  }

  lemma ReleaseStarts(s: State, moved: seq<Task>, u: Uid)
    requires multiset(moved) <= s.queue.delayed
    ensures Starts(s.(queue := Release(s.queue, moved)), u) == Starts(s, u)
  {
    ReleaseCopies(s.queue, moved);
  }

  lemma TickBeginStarts(c: Config, s: State, snapshot: seq<Task>, now: int, u: Uid)
    requires WellFormed(s) && IsSnapshot(s.rows, snapshot) && Orderly(s, ETickBegin(snapshot, now))
    ensures Starts(TickBegin(c, s, snapshot, now), u) <= Starts(s, u)
  {
    SweepStarts(s, snapshot, now, u);
  }

  lemma StepStarts(c: Config, s: State, e: Event, u: Uid)
    requires WellFormed(s) && Enabled(s, e) && !e.ECreate? && Orderly(s, e)
    ensures Starts(Apply(c, s, e), u) <= Starts(s, u)
  {
    match e {
      case ETickBegin(snapshot, now) => TickBeginStarts(c, s, snapshot, now, u);
      case ETickPop(t, node, now) => TickPopStarts(s, t, node, now, u);
      case ELocalDone(t, r, now) => LocalDoneStarts(s, t, r, now, u);
      case ERemoteReport(uid, r, now) => RemoteReportStarts(s, uid, r, now, u);
      case ERelease(moved) => ReleaseStarts(s, moved, u);
      case ECancel(uid) => CancelStarts(s, uid, u);
      case EPull(_) =>
      case ETickEnd =>
    }
  }

  ghost predicate WithinPromise(s: State, u: Uid) {
    if u in s.rows then Starts(s, u) <= s.rows[u].maxRetries + 1 else Starts(s, u) == 0
  }

  lemma CreateWithinPromise(s: State, t: Task, u: Uid)
    requires IsSubmission(s.rows, t) && WithinPromise(s, u)
    ensures WithinPromise(Create(s, t), u)
  {
    PushCopies(s.queue, t);
    QueueStartsAdd(u, Copies(s.queue), t);
  }

  lemma {:induction false} RunKeepsPromise(c: Config, s: State, es: seq<Event>, u: Uid)
    requires WellFormed(s) && ValidRun(c, s, es) && OrderlyRun(c, s, es) && WithinPromise(s, u)
    ensures WithinPromise(Run(c, s, es), u)
    decreases |es|
  {
    if es != [] {
      StepKeepsWellFormed(c, s, es[0]);
      if es[0].ECreate? {
        CreateWithinPromise(s, es[0].task, u);
      } else {
        StepKeepsLimits(c, s, es[0]);
        StepStarts(c, s, es[0], u);
      }
      RunKeepsPromise(c, Apply(c, s, es[0]), es[1..], u);
    }
  }

  /** Main result: in an orderly run a task is started at most once and then once for
      each of its retries. */
  lemma OrderlyRunsKeepThePromise(c: Config, es: seq<Event>, u: Uid)
    requires ValidRun(c, INITIAL, es) && OrderlyRun(c, INITIAL, es) && u in Run(c, INITIAL, es).rows
    ensures Run(c, INITIAL, es).started[u] <= Run(c, INITIAL, es).rows[u].maxRetries + 1
  {
    InitiallyWithinBound(u);
    RunKeepsPromise(c, INITIAL, es, u);
  }
}
