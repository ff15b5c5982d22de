/** How often one task can be started, over every run of the lifecycle machine:
    whatever timeouts, duplicated, late or spurious results and cancellations
    arrive, a task with `n` retries is started at most (3^(n+1) - 1) / 2 times. */
module DispatchBound {
  import opened Sums
  import opened Tasks
  import opened TaskQueue
  import opened Lifecycle

  function Pow3(n: nat): nat {
    if n == 0 then 1 else 3 * Pow3(n - 1)
  }

  /** The starts that a running copy with `b` retries left can still cause. */
  function Weight(b: nat): nat {
    if b == 0 then 0 else 3 * Weight(b - 1) + 1
  }

  lemma {:induction false} WeightIsHalfPower(b: nat)
    ensures 2 * Weight(b) + 1 == Pow3(b)
    ensures Weight(b) == (Pow3(b) - 1) / 2
  {
    if b > 0 { WeightIsHalfPower(b - 1); }
  }

  function RetriesLeft(t: Task): nat {
    if t.retryCount < t.maxRetries then t.maxRetries - t.retryCount else 0
  }

  /** A queued copy of `u` weighs 3^b, a running copy or a row (3^b - 1) / 2. */
  function QueuedWeight(u: Uid, t: Task): nat {
    if t.uid == u then 2 * Weight(RetriesLeft(t)) + 1 else 0
  }

  function RunningWeight(u: Uid, t: Task): nat {
    if t.uid == u then Weight(RetriesLeft(t)) else 0
  }

  function RowWeight(rows: map<Uid, Task>, u: Uid): nat {
    if u in rows then Weight(RetriesLeft(rows[u])) else 0
  }

  ghost function ByQueuedWeight(u: Uid): Task -> nat {
    (t: Task) => QueuedWeight(u, t)
  }

  ghost function ByRunningWeight(u: Uid): Task -> nat {
    (t: Task) => RunningWeight(u, t)
  }

  ghost function InQueue(u: Uid, m: multiset<Task>): nat {
    Sum(ByQueuedWeight(u), m)
  }

  ghost function InFlight(u: Uid, m: multiset<Task>): nat {
    Sum(ByRunningWeight(u), m)
  }

  lemma InQueueAdd(u: Uid, m: multiset<Task>, t: Task)
    ensures InQueue(u, m + multiset{t}) == QueuedWeight(u, t) + InQueue(u, m)
  {
    SumAdd(ByQueuedWeight(u), m, t);
  }

  lemma InQueueRemove(u: Uid, m: multiset<Task>, t: Task)
    requires t in m
    ensures InQueue(u, m) == QueuedWeight(u, t) + InQueue(u, m - multiset{t})
  {
    SumRemove(ByQueuedWeight(u), m, t);
  }

  lemma InFlightAdd(u: Uid, m: multiset<Task>, t: Task)
    ensures InFlight(u, m + multiset{t}) == RunningWeight(u, t) + InFlight(u, m)
  {
    SumAdd(ByRunningWeight(u), m, t);
  }

  lemma InFlightRemove(u: Uid, m: multiset<Task>, t: Task)
    requires t in m
    ensures InFlight(u, m) == RunningWeight(u, t) + InFlight(u, m - multiset{t})
  {
    SumRemove(ByRunningWeight(u), m, t);
  }

  /** Starts so far plus the weight of the queued and the running copies. */
  ghost function Spent(s: State, u: Uid): nat {
    s.started[u] + InQueue(u, Copies(s.queue)) + InFlight(u, s.locals)
  }

  ghost function Charge(s: State, u: Uid): nat {
    Spent(s, u) + RowWeight(s.rows, u)
  }

  function Max(a: nat, b: nat): nat {
    if a < b then b else a
  }

  // ----- The effect of each piece of a handler on the charge of `u` -----

  lemma QueueOne(s: State, s': State, t: Task, u: Uid)
    requires Copies(s'.queue) == Copies(s.queue) + multiset{t}
    requires s'.locals == s.locals && s'.started == s.started
    ensures Spent(s', u) == Spent(s, u) + QueuedWeight(u, t)
  {
    InQueueAdd(u, Copies(s.queue), t);
  }

  lemma SaveOne(s: State, t: Task, u: Uid)
    requires t.uid in s.rows
    ensures Spent(Save(s, t), u) == Spent(s, u)
    ensures RowWeight(Save(s, t).rows, u) == if t.uid == u then RunningWeight(u, t) else RowWeight(s.rows, u)
  {
  }

  /** A retry trades the weight b of a copy for b - 1 on the row and b - 1 queued. */
  lemma RetryWeights(t: Task, again: Task, u: Uid)
    requires 0 <= t.retryCount < t.maxRetries == again.maxRetries && again.retryCount == t.retryCount + 1
    requires again.uid == t.uid
    ensures QueuedWeight(u, again) + RunningWeight(u, again) == RunningWeight(u, t)
  {
  }

  lemma RetryCharge(s: State, t: Task, again: Task, u: Uid)
    requires GoodCopy(s.rows, t) && t.retryCount < t.maxRetries
    requires again.uid == t.uid && again.maxRetries == t.maxRetries && again.retryCount == t.retryCount + 1
    ensures Charge(Save(s, again).(queue := PushDelayed(s.queue, again)), u)
         == Spent(s, u) + (if t.uid == u then RunningWeight(u, t) else RowWeight(s.rows, u))
  {
    PushCopies(s.queue, again);
    SaveOne(s, again, u);
    QueueOne(Save(s, again), Save(s, again).(queue := PushDelayed(s.queue, again)), again, u);
    RetryWeights(t, again, u);
  }

  lemma FailTaskCharge(s: State, t: Task, msg: string, now: int, u: Uid)
    requires GoodCopy(s.rows, t)
    ensures Charge(FailTask(s, t, msg, now), u) <= Spent(s, u) + Max(RowWeight(s.rows, u), RunningWeight(u, t))
  {
    if t.CanRetry() {
      var again := Retried(t, msg);
      assert FailTask(s, t, msg, now) == Save(s, again).(queue := PushDelayed(s.queue, again));
      RetryCharge(s, t, again, u);
    } else {
      var failed := t.(errorMessage := msg, finishedAt := Some(now)).TransitionTo(Failed);
      if failed.Ok? {
        SaveOne(s, failed.value, u);
      }
    }
  }

  lemma CompleteTaskCharge(s: State, t: Task, r: TaskResult, now: int, u: Uid)
    requires GoodCopy(s.rows, t)
    ensures Charge(CompleteTask(s, t, r, now), u) <= Spent(s, u) + Max(RowWeight(s.rows, u), RunningWeight(u, t))
  {
    var reported := t.(stdout := r.stdout, stderr := r.stderr, finishedAt := Some(now));
    assert RunningWeight(u, reported) == RunningWeight(u, t);
    if r.error.Some? {
      var msg := if r.timedOut then TIMED_OUT else r.error.value;
      assert CompleteTask(s, t, r, now) == FailTask(s, reported, msg, now);
      FailTaskCharge(s, reported, msg, now, u);
    } else {
      var done := reported.(exitCode := Some(r.exitCode)).TransitionTo(Success);
      assert CompleteTask(s, t, r, now) == if done.Ok? then Save(s, done.value) else s;
      if done.Ok? {
        SaveOne(s, done.value, u);
        assert RunningWeight(u, done.value) == RunningWeight(u, t);
      }
    }
  }

  lemma RowCopyWeight(s: State, t: Task, u: Uid)
    requires t.uid in s.rows && s.rows[t.uid] == t
    ensures RunningWeight(u, t) <= RowWeight(s.rows, u)
  {
  }

  /** What is left of a snapshot while the sweep is under way: copies of their rows. */
  ghost predicate StillRows(rows: map<Uid, Task>, ts: seq<Task>) {
    && (forall t :: t in ts ==> t.uid in rows && rows[t.uid] == t)
    && (forall i, j :: 0 <= i < j < |ts| ==> ts[i].uid != ts[j].uid)
  }

  lemma SweepKeepsRest(s: State, ts: seq<Task>, now: int)
    requires ts != [] && StillRows(s.rows, ts)
    ensures StillRows(FailTask(s, ts[0], TIMED_OUT, now).rows, ts[1..])
    ensures StillRows(s.rows, ts[1..])
  {
  }

  lemma {:induction false} FailTimedOutCharge(s: State, ts: seq<Task>, now: int, u: Uid)
    requires WellFormed(s) && StillRows(s.rows, ts)
    ensures Charge(FailTimedOut(s, ts, now), u) <= Charge(s, u)
    decreases |ts|
  {
    if ts != [] {
      var next := if TimedOut(ts[0], now) then FailTask(s, ts[0], TIMED_OUT, now) else s;
      FailTaskKeepsWellFormed(s, ts[0], TIMED_OUT, now);
      FailTaskCharge(s, ts[0], TIMED_OUT, now, u);
      RowCopyWeight(s, ts[0], u);
      SweepKeepsRest(s, ts, now);
      FailTimedOutCharge(next, ts[1..], now, u);
    }
  }

  lemma DispatchParts(s: State, t: Task, node: Option<NodeId>, now: int, u: Uid)
    requires t.uid in s.rows && Waiting(t)
    ensures var s' := Dispatch(s, t, node, now);
            && s'.queue == s.queue && s'.started == s.started + multiset{t.uid}
            && InFlight(u, s'.locals) <= RunningWeight(u, t) + InFlight(u, s.locals)
            && RowWeight(s'.rows, u) == if t.uid == u then RunningWeight(u, t) else RowWeight(s.rows, u)
  {
    var run := RunningCopy(t, node, now);
    DispatchSucceeds(s, t, node, now);
    hide Dispatch, InFlight;
    InFlightAdd(u, s.locals, run);
    assert RunningWeight(u, run) == RunningWeight(u, t);
  }

  /** A start pays for itself: the popped copy outweighs the running copy and the
      row it leaves behind by one. */
  lemma DispatchCharge(s: State, t: Task, node: Option<NodeId>, now: int, u: Uid)
    requires GoodCopy(s.rows, t) && Waiting(t)
    ensures Charge(Dispatch(s, t, node, now), u) <= Charge(s, u) + QueuedWeight(u, t)
  {
    DispatchParts(s, t, node, now, u);
    assert QueuedWeight(u, t) == if t.uid == u then 2 * RunningWeight(u, t) + 1 else 0;
    hide Dispatch, RowWeight, RunningWeight, QueuedWeight, InQueue, InFlight, Copies;
  }

  lemma PopCharge(s: State, t: Task, u: Uid)
    requires CanPop(s.queue, t)
    ensures Charge(s.(queue := AfterPop(s.queue, t)), u) + QueuedWeight(u, t) == Charge(s, u)
  {
    PopCopies(s.queue, t);
    InQueueRemove(u, Copies(s.queue), t);
  }

  lemma TickPopCharge(s: State, t: Task, node: Option<NodeId>, now: int, u: Uid)
    requires WellFormed(s) && s.tick.Some? && CanPop(s.queue, t)
    ensures Charge(TickPop(s, t, node, now), u) <= Charge(s, u)
  {
    var popped := s.(queue := AfterPop(s.queue, t));
    PopKeepsWellFormed(s, t);
    PopCharge(s, t, u);
    if CanAllocate(t, s.tick.value.cpu, s.tick.value.mem) {
      DispatchCharge(popped, t, node, now, u);
    } else {
      PushCopies(popped.queue, t);
      QueueOne(popped, TickPop(s, t, node, now), t, u);
    }
  }

  lemma LocalDoneCharge(s: State, t: Task, r: TaskResult, now: int, u: Uid)
    requires WellFormed(s) && t in s.locals
    ensures Charge(LocalDone(s, t, r, now), u) <= Charge(s, u)
  {
    InFlightRemove(u, s.locals, t);
    CompleteTaskCharge(s.(locals := s.locals - multiset{t}), t, r, now, u);
  }

  lemma RemoteReportCharge(s: State, uid: Uid, r: TaskResult, now: int, u: Uid)
    requires WellFormed(s)
    ensures Charge(RemoteReport(s, uid, r, now), u) <= Charge(s, u)
  {
    if uid in s.rows {
      CompleteTaskCharge(s.(pulled := s.pulled - multiset{uid}), s.rows[uid], r, now, u);
      RowCopyWeight(s, s.rows[uid], u);
    }
  }

  // ----- Who starts tasks -----

  lemma DispatchStartsAtMostOnce(s: State, t: Task, node: Option<NodeId>, now: int)
    ensures var s' := Dispatch(s, t, node, now);
            s'.started == s.started || s'.started == s.started + multiset{t.uid}
  {
  }

  lemma FailTaskStartsNothing(s: State, t: Task, msg: string, now: int)
    ensures FailTask(s, t, msg, now).started == s.started
  {
  }

  lemma {:induction false} FailTimedOutStartsNothing(s: State, snapshot: seq<Task>, now: int)
    ensures FailTimedOut(s, snapshot, now).started == s.started
    decreases |snapshot|
  {
    if snapshot != [] {
      FailTaskStartsNothing(s, snapshot[0], TIMED_OUT, now);
      var next := if TimedOut(snapshot[0], now) then FailTask(s, snapshot[0], TIMED_OUT, now) else s;
      FailTimedOutStartsNothing(next, snapshot[1..], now);
    }
  }

  lemma CompleteTaskStartsNothing(s: State, t: Task, r: TaskResult, now: int)
    ensures CompleteTask(s, t, r, now).started == s.started
  {
  }

  /** Only the dispatch loop starts tasks. */
  lemma HandlersStartNothing(c: Config, s: State, e: Event)
    requires Enabled(s, e) && !e.ETickPop?
    ensures Apply(c, s, e).started == s.started
  {
    hide FailTimedOut, CompleteTask;
    match e {
      case ETickBegin(snapshot, now) => FailTimedOutStartsNothing(s, snapshot, now);
      case ELocalDone(t, r, now) => CompleteTaskStartsNothing(s.(locals := s.locals - multiset{t}), t, r, now);
      case ERemoteReport(uid, r, now) =>
        if uid in s.rows { CompleteTaskStartsNothing(s.(pulled := s.pulled - multiset{uid}), s.rows[uid], r, now); }
      case _ =>
    }
  }

  // ----- The invariant -----

  /** An unknown uid has no charge; a known one has not overrun its bound. */
  ghost predicate WithinBound(s: State, u: Uid) {
    if u in s.rows then s.rows[u].maxRetries >= 0 && Charge(s, u) <= Weight(s.rows[u].maxRetries + 1)
    else Charge(s, u) == 0
  }

  lemma CreateWithinBound(s: State, t: Task, u: Uid)
    requires IsSubmission(s.rows, t) && WithinBound(s, u)
    ensures WithinBound(Create(s, t), u)
  {
    CreateCharge(s, t, u);
    hide Charge, RowWeight;
    if t.uid == u { NewTaskWeight(t); }
    hide QueuedWeight, RunningWeight, Weight;
  }

  lemma CreateCharge(s: State, t: Task, u: Uid)
    requires t.uid !in s.rows
    ensures Charge(Create(s, t), u) == Charge(s, u) + QueuedWeight(u, t) + RunningWeight(u, t)
  {
    PushCopies(s.queue, t);
    QueueOne(s, Create(s, t), t, u);
    hide Spent, Weight, QueuedWeight;
  }

  lemma NewTaskWeight(t: Task)
    requires t.retryCount == 0 && t.maxRetries >= 0
    ensures QueuedWeight(t.uid, t) + RunningWeight(t.uid, t) == Weight(t.maxRetries + 1)
  {
    assert RetriesLeft(t) == t.maxRetries;
    assert Weight(t.maxRetries + 1) == 3 * Weight(t.maxRetries) + 1;
  }

  lemma {:induction false} FailTimedOutLimits(s: State, ts: seq<Task>, now: int)
    requires WellFormed(s) && AllGood(s.rows, multiset(ts))
    ensures SameSubmissions(s.rows, FailTimedOut(s, ts, now).rows)
    decreases |ts|
  {
    if ts != [] {
      HeadIsRemoved(ts);
      var next := if TimedOut(ts[0], now) then FailTask(s, ts[0], TIMED_OUT, now) else s;
      FailTaskKeepsWellFormed(s, ts[0], TIMED_OUT, now);
      SameSubmissionsKeepGood(s.rows, next.rows, multiset(ts[1..]));
      FailTimedOutLimits(next, ts[1..], now);
    }
  }

  lemma CompleteTaskLimits(s: State, t: Task, r: TaskResult, now: int)
    requires GoodCopy(s.rows, t)
    ensures SameSubmissions(s.rows, CompleteTask(s, t, r, now).rows)
  {
    var written := CompleteTask(s, t, r, now).rows;
    assert written == s.rows || (t.uid in written && written == s.rows[t.uid := written[t.uid]]);
    assert t.uid in written && SameSubmission(s.rows[t.uid], written[t.uid]);
    hide CompleteTask, SameSubmission;
  }

  lemma RemoteReportLimits(s: State, uid: Uid, r: TaskResult, now: int)
    requires WellFormed(s)
    ensures SameSubmissions(s.rows, RemoteReport(s, uid, r, now).rows)
  {
    if uid in s.rows {
      CompleteTaskLimits(s.(pulled := s.pulled - multiset{uid}), s.rows[uid], r, now);
    }
  }

  lemma DispatchLimits(s: State, t: Task, node: Option<NodeId>, now: int)
    requires GoodCopy(s.rows, t) && Waiting(t)
    ensures SameSubmissions(s.rows, Dispatch(s, t, node, now).rows)
  {
    DispatchSucceeds(s, t, node, now);
    hide Dispatch;
  }

  lemma TickPopLimits(s: State, t: Task, node: Option<NodeId>, now: int)
    requires s.tick.Some? && GoodCopy(s.rows, t) && Waiting(t)
    ensures SameSubmissions(s.rows, TickPop(s, t, node, now).rows)
  {
    DispatchLimits(s.(queue := AfterPop(s.queue, t)), t, node, now);
    hide Dispatch;
  }

  lemma CancelLimits(s: State, uid: Uid)
    requires WellFormed(s)
    ensures SameSubmissions(s.rows, Cancel(s, uid).rows)
  {
  }

  lemma TickBeginLimits(c: Config, s: State, snapshot: seq<Task>, now: int)
    requires WellFormed(s) && IsSnapshot(s.rows, snapshot)
    ensures SameSubmissions(s.rows, TickBegin(c, s, snapshot, now).rows)
  {
    assert AllGood(s.rows, multiset(snapshot)) by { hide AllWaiting, AllRunning; }
    FailTimedOutLimits(s, snapshot, now);
    hide FailTimedOut, CpuOf, MemOf;
  }

  /** No step but a submission changes the set of rows or a retry limit. */
  lemma StepKeepsLimits(c: Config, s: State, e: Event)
    requires WellFormed(s) && Enabled(s, e) && !e.ECreate?
    ensures SameSubmissions(s.rows, Apply(c, s, e).rows)
  {
    hide GoodCopy, FailTimedOut, CompleteTask, TickPop, RemoteReport, Cancel;
    match e {
      case ETickBegin(snapshot, now) => TickBeginLimits(c, s, snapshot, now);
      case ETickPop(t, node, now) =>
        PopKeepsWellFormed(s, t);
        TickPopLimits(s, t, node, now);
      case ELocalDone(t, r, now) => CompleteTaskLimits(s.(locals := s.locals - multiset{t}), t, r, now);
      case ERemoteReport(uid, r, now) => RemoteReportLimits(s, uid, r, now);
      case ECancel(uid) => CancelLimits(s, uid);
      case ERelease(_) =>
      case EPull(_) =>
      case ETickEnd =>
    }
  }

  /** A row keeps what was submitted. */
  lemma {:induction false} RunKeepsSubmission(c: Config, s: State, es: seq<Event>, u: Uid)
    requires WellFormed(s) && ValidRun(c, s, es) && u in s.rows
    ensures u in Run(c, s, es).rows && SameSubmission(s.rows[u], Run(c, s, es).rows[u])
    decreases |es|
  {
    hide WellFormed;
    if es != [] {
      StepKeepsWellFormed(c, s, es[0]);
      StepKeepsRow(c, s, es[0], u);
      hide Apply, Enabled;
      RunKeepsSubmission(c, Apply(c, s, es[0]), es[1..], u);
    }
  }

  lemma StepKeepsRow(c: Config, s: State, e: Event, u: Uid)
    requires WellFormed(s) && Enabled(s, e) && u in s.rows
    ensures u in Apply(c, s, e).rows && SameSubmission(s.rows[u], Apply(c, s, e).rows[u])
  {
    hide WellFormed;
    if !e.ECreate? {
      StepKeepsLimits(c, s, e);
      hide Apply, Enabled;
    }
  }

  /** Main result: in every run the row of a task, whatever has become of it, is that of
      its submission. */
  lemma {:induction false} SubmissionIsKept(c: Config, s: State, es: seq<Event>, t: Task)
    requires WellFormed(s) && ValidRun(c, s, es) && ECreate(t) in es
    ensures t.uid in Run(c, s, es).rows && SameSubmission(t, Run(c, s, es).rows[t.uid]) && t.maxRetries >= 0
    decreases |es|
  {
    StepKeepsWellFormed(c, s, es[0]);
    if es[0] == ECreate(t) {
      RunKeepsSubmission(c, Apply(c, s, es[0]), es[1..], t.uid);
    } else {
      hide WellFormed, Apply, Enabled;
      SubmissionIsKept(c, Apply(c, s, es[0]), es[1..], t);
    }
  }

  lemma CancelCharge(s: State, uid: Uid, u: Uid)
    requires WellFormed(s)
    ensures Charge(Cancel(s, uid), u) == Charge(s, u)
  {
    if uid in s.rows && s.rows[uid].TransitionTo(Canceled).Ok? {
      var canceled := s.rows[uid].TransitionTo(Canceled).value;
      SaveOne(s, canceled, u);
      assert RunningWeight(u, canceled) == if uid == u then RowWeight(s.rows, u) else 0;
    }
    hide Spent, Weight, WellFormed;
  }

  lemma ReleaseCharge(s: State, moved: seq<Task>, u: Uid)
    requires multiset(moved) <= s.queue.delayed
    ensures Charge(s.(queue := Release(s.queue, moved)), u) == Charge(s, u)
  {
    ReleaseCopies(s.queue, moved);
  }

  /** No step raises the charge of a uid that is already known. */
  lemma StepCharge(c: Config, s: State, e: Event, u: Uid)
    requires WellFormed(s) && Enabled(s, e) && !e.ECreate?
    ensures Charge(Apply(c, s, e), u) <= Charge(s, u)
  {
    match e {
      case ETickBegin(snapshot, now) => FailTimedOutCharge(s, snapshot, now, u);
      case ETickPop(t, node, now) => TickPopCharge(s, t, node, now, u);
      case ELocalDone(t, r, now) => LocalDoneCharge(s, t, r, now, u);
      case ERemoteReport(uid, r, now) => RemoteReportCharge(s, uid, r, now, u);
      case ERelease(moved) => ReleaseCharge(s, moved, u);
      case ECancel(uid) => CancelCharge(s, uid, u);
      case EPull(_) =>
      case ETickEnd =>
    }
  }

  lemma StepKeepsBound(c: Config, s: State, e: Event, u: Uid)
    requires WellFormed(s) && Enabled(s, e) && WithinBound(s, u)
    ensures WellFormed(Apply(c, s, e)) && WithinBound(Apply(c, s, e), u)
  {
    StepKeepsWellFormed(c, s, e);
    if e.ECreate? {
      CreateWithinBound(s, e.task, u);
    } else {
      StepKeepsLimits(c, s, e);
      StepCharge(c, s, e, u);
    }
  }

  lemma {:induction false} RunKeepsBound(c: Config, s: State, es: seq<Event>, u: Uid)
    requires WellFormed(s) && ValidRun(c, s, es) && WithinBound(s, u)
    ensures WellFormed(Run(c, s, es)) && WithinBound(Run(c, s, es), u)
    decreases |es|
  {
    if es != [] {
      StepKeepsBound(c, s, es[0], u);
      RunKeepsBound(c, Apply(c, s, es[0]), es[1..], u);
    }
  }

  lemma InitiallyWithinBound(u: Uid)
    ensures WellFormed(INITIAL) && WithinBound(INITIAL, u)
  {
  }

  /** Main result: in every state of every run, a task with maxRetries = n has been
      started at most (3^(n+1) - 1) / 2 times. */
  lemma StartsAreBounded(c: Config, es: seq<Event>, u: Uid)
    requires ValidRun(c, INITIAL, es) && u in Run(c, INITIAL, es).rows
    ensures Run(c, INITIAL, es).rows[u].maxRetries >= 0
    ensures Run(c, INITIAL, es).started[u] <= (Pow3(Run(c, INITIAL, es).rows[u].maxRetries + 1) - 1) / 2
  {
    InitiallyWithinBound(u);
    RunKeepsBound(c, INITIAL, es, u);
    var s := Run(c, INITIAL, es);
    WeightIsHalfPower(s.rows[u].maxRetries + 1);
  }

  /** On the way every copy of a task, wherever it is, is one of its submission, and none
      uses more retries than the task has. */
  lemma RetriesAreBounded(c: Config, es: seq<Event>, t: Task)
    requires ValidRun(c, INITIAL, es)
    requires var s := Run(c, INITIAL, es); t in Copies(s.queue) || t in s.locals || t in s.rows.Values
    ensures var s := Run(c, INITIAL, es);
            && t.uid in s.rows && SameSubmission(t, s.rows[t.uid])
            && 0 <= t.retryCount <= t.maxRetries == s.rows[t.uid].maxRetries
  {
    RunKeepsWellFormed(c, INITIAL, es);
    var s := Run(c, INITIAL, es);
    if t in s.rows.Values {
      var u :| u in s.rows && s.rows[u] == t;
    }
  }

  /** Retry limits are those of the submission, so a task submitted through the
      service (three retries) is started at most forty times. */
  lemma ServiceTasksStartAtMostForty(c: Config, es: seq<Event>, u: Uid, name: string, command: string)
    requires ValidRun(c, INITIAL, es) && u in Run(c, INITIAL, es).rows
    requires Run(c, INITIAL, es).rows[u].maxRetries == NewTask(u, name, command).maxRetries
    ensures Run(c, INITIAL, es).started[u] <= 40
  {
    StartsAreBounded(c, es, u);
    assert Pow3(4) == 81 by { assert Pow3(2) == 9; }
  }
}
