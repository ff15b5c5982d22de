/** The dispatch bound cannot be improved: for every retry limit there is a run that
    starts a task exactly (3^(n+1) - 1) / 2 times.  So the documented promise of at
    most n retries (docs/features/2026-06-03-mini-bk-phase2/proposal.md) is broken by
    the code as soon as n > 0. */
module BoundReached {
  import opened Sums
  import opened Tasks
  import opened TaskQueue
  import opened Lifecycle
  import opened DispatchBound

  const FAILURE := TaskResult(1, "", "", false, Some("exit status 1"))

  /** What a task asks of the queue and of a tick. */
  datatype Demand = Demand(priority: int, cpu: int, mem: int)

  function DemandOf(t: Task): Demand {
    Demand(t.priority, t.cpuLimit, t.memoryLimit)
  }

  predicate Plain(p: Demand, t: Task) {
    DemandOf(t) == p
  }

  /** An idle scheduler can take the task. */
  predicate Fits(c: Config, p: Demand) {
    c.maxConcurrent > 0 && p.cpu <= c.totalCpu && p.mem <= c.totalMem
  }

  ghost predicate AllPlain(p: Demand, m: multiset<Task>) {
    forall t :: t in m ==> Plain(p, t)
  }

  /** Between ticks, with `u` the only task. */
  ghost predicate Solo(s: State, u: Uid, p: Demand) {
    && WellFormed(s) && s.tick.None? && s.rows.Keys == {u}
    && Plain(p, s.rows[u]) && AllPlain(p, Copies(s.queue)) && AllPlain(p, s.locals)
  }

  /** The row, or a running copy, still has retries: report a failure for it. */
  lemma RequeueStaysSolo(s: State, u: Uid, p: Demand, again: Task)
    requires Solo(s, u, p)
    requires GoodCopy(s.rows, again) && Plain(p, again) && again.status == Pending
    ensures Solo(Requeue(s, again), u, p)
  {
    var saved := Save(s, again);
    SaveKeepsWellFormed(s, again);
    DelayKeepsWellFormed(saved, again);
    PushCopies(s.queue, again);
    assert saved.rows == s.rows[u := again];
  }

  function Again(t: Task): Task {
    t.(stdout := FAILURE.stdout, stderr := FAILURE.stderr, errorMessage := FAILURE.error.value,
       retryCount := t.retryCount + 1, status := Pending, finishedAt := None)
  }

  function Requeue(s: State, again: Task): State {
    Save(s, again).(queue := PushDelayed(s.queue, again))
  }

  lemma FailureRequeues(s: State, t: Task)
    requires t.CanRetry()
    ensures CompleteTask(s, t, FAILURE, 0) == Requeue(s, Again(t))
  {
  }

  lemma AgainIsPlain(rows: map<Uid, Task>, p: Demand, t: Task)
    requires GoodCopy(rows, t) && Plain(p, t) && t.CanRetry()
    ensures GoodCopy(rows, Again(t)) && Plain(p, Again(t)) && Again(t).status == Pending && Again(t).uid == t.uid
    ensures Again(t).maxRetries == t.maxRetries && Again(t).retryCount == t.retryCount + 1
    ensures Weight(RetriesLeft(t)) == 3 * Weight(RetriesLeft(Again(t))) + 1
  {
  }

  /** Requeueing trades the weight of `t` for a lighter row and a queued copy. */
  lemma RetryTrades(left: State, u: Uid, p: Demand, t: Task)
    requires GoodCopy(left.rows, t) && Plain(p, t) && t.uid == u && t.CanRetry()
    ensures var next := Requeue(left, Again(t));
            && Charge(next, u) == Spent(left, u) + RunningWeight(u, t) && RowWeight(next.rows, u) < RunningWeight(u, t)
            && next.started == left.started && next.locals == left.locals
  {
    var again := Again(t);
    AgainIsPlain(left.rows, p, t);
    RetryCharge(left, t, again, u);
    SaveOne(left, again, u);
    assert RunningWeight(u, again) < RunningWeight(u, t);
    hide Again, Weight;
  }

  lemma ReportRetry(s: State, u: Uid, p: Demand) returns (next: State)
    requires Solo(s, u, p) && RetriesLeft(s.rows[u]) > 0
    ensures next == RemoteReport(s, u, FAILURE, 0) && Solo(next, u, p)
    ensures Charge(next, u) == Charge(s, u) && next.started == s.started && next.locals == s.locals
    ensures RowWeight(next.rows, u) < RowWeight(s.rows, u)
  {
    var t := s.rows[u];
    var left := s.(pulled := s.pulled - multiset{u});
    next := Requeue(left, Again(t));
    FailureRequeues(left, t);
    AgainIsPlain(left.rows, p, t);
    RequeueStaysSolo(left, u, p, Again(t));
    assert RunningWeight(u, t) == RowWeight(s.rows, u);
    RetryTrades(left, u, p, t);
    hide Requeue, Again, RowWeight, RunningWeight, Solo, RemoteReport, InQueue, InFlight;
  }

  /** A running row without retries is failed for good; nothing is queued. */
  lemma ReportFinal(s: State, u: Uid, p: Demand) returns (next: State)
    requires Solo(s, u, p) && RetriesLeft(s.rows[u]) == 0 && s.rows[u].status == Running
    ensures next == RemoteReport(s, u, FAILURE, 0) && Solo(next, u, p)
    ensures Charge(next, u) == Charge(s, u) && next.started == s.started && next.locals == s.locals
    ensures RowWeight(next.rows, u) == 0 && next.rows[u].status != Running
  {
    var t := s.rows[u];
    var failed := t.(stdout := "", stderr := "", errorMessage := FAILURE.error.value, finishedAt := Some(0),
        status := Failed);
    var left := s.(pulled := s.pulled - multiset{u});
    next := Save(left, failed);
    assert next == RemoteReport(s, u, FAILURE, 0);
    SaveKeepsWellFormed(left, failed);
    SaveOne(left, failed, u);
    assert next.rows == s.rows[u := failed];
  }

  lemma LocalRetryTrades(s: State, u: Uid, p: Demand, t: Task)
    requires t in s.locals && GoodCopy(s.rows, t) && Plain(p, t) && t.uid == u && t.CanRetry()
             && RowWeight(s.rows, u) == 0
    ensures var next := Requeue(s.(locals := s.locals - multiset{t}), Again(t));
            && Charge(next, u) == Charge(s, u) && next.started == s.started
            && RowWeight(next.rows, u) + InFlight(u, next.locals) < InFlight(u, s.locals)
  {
    InFlightRemove(u, s.locals, t);
    RetryTrades(s.(locals := s.locals - multiset{t}), u, p, t);
    hide Requeue, Again, RunningWeight, InQueue, InFlight, GoodCopy, Plain;
  }

  lemma LocalRetry(s: State, u: Uid, p: Demand, t: Task) returns (next: State)
    requires Solo(s, u, p) && RowWeight(s.rows, u) == 0 && t in s.locals && RetriesLeft(t) > 0
    ensures next == LocalDone(s, t, FAILURE, 0) && Solo(next, u, p)
    ensures Charge(next, u) == Charge(s, u) && next.started == s.started
    ensures RowWeight(next.rows, u) + InFlight(u, next.locals) < InFlight(u, s.locals)
  {
    var left := s.(locals := s.locals - multiset{t});
    next := Requeue(left, Again(t));
    FailureRequeues(left, t);
    LocalLeaves(s, u, p, t);
    AgainIsPlain(left.rows, p, t);
    LocalRetryTrades(s, u, p, t);
    hide Solo, Requeue, Again, Plain, Charge, RowWeight, InFlight, WellFormed, GoodCopy;
    RequeueStaysSolo(left, u, p, Again(t));
  }

  lemma LocalLeaves(s: State, u: Uid, p: Demand, t: Task)
    requires Solo(s, u, p) && t in s.locals
    ensures Solo(s.(locals := s.locals - multiset{t}), u, p) && GoodCopy(s.rows, t) && Plain(p, t) && t.uid == u
  {
  }

  lemma ReleaseOne(s: State, u: Uid, p: Demand, t: Task) returns (next: State)
    requires Solo(s, u, p) && t in s.queue.delayed
    ensures multiset([t]) <= s.queue.delayed
    ensures next == s.(queue := Release(s.queue, [t])) && Solo(next, u, p) && next.queue.ready != []
    ensures Charge(next, u) == Charge(s, u)
  {
    next := s.(queue := Release(s.queue, [t]));
    ReleaseCopies(s.queue, [t]);
    ReleaseCharge(s, [t], u);
  }

  /** A whole tick that dispatches one ready copy locally. */
  function OneTick(t: Task): seq<Event> {
    [ETickBegin([], 0), ETickPop(t, None, 0), ETickEnd]
  }

  /** The state after popping `t` and running it locally. */
  function Started(s: State, t: Task): State {
    var run := RunningCopy(t, None, 0);
    s.(queue := AfterPop(s.queue, t), rows := s.rows[t.uid := run],
       started := s.started + multiset{t.uid}, locals := s.locals + multiset{run})
  }

  lemma DispatchStarts(s: State, t: Task)
    requires Waiting(t) && t.uid in s.rows
    ensures Dispatch(s.(queue := AfterPop(s.queue, t)), t, None, 0) == Started(s, t)
  {
    DispatchSucceeds(s.(queue := AfterPop(s.queue, t)), t, None, 0);
  }

  lemma StartedIsWellFormed(s: State, t: Task)
    requires WellFormed(s) && CanPop(s.queue, t)
    ensures WellFormed(Started(s, t)) && GoodCopy(s.rows, t) && Waiting(t)
  {
    PopKeepsWellFormed(s, t);
    DispatchStarts(s, t);
    DispatchKeepsWellFormed(s.(queue := AfterPop(s.queue, t)), t, None, 0);
  }

  lemma PopIsPlain(q: Queue, p: Demand, t: Task)
    requires AllPlain(p, Copies(q)) && CanPop(q, t)
    ensures Plain(p, t) && AllPlain(p, Copies(AfterPop(q, t)))
  {
  }

  lemma StartedStaysSolo(s: State, u: Uid, p: Demand, t: Task)
    requires Solo(s, u, p) && CanPop(s.queue, t)
    ensures Solo(Started(s, t), u, p) && Plain(p, t) && Waiting(t) && t.uid == u
  {
    StartedIsWellFormed(s, t);
    PopIsPlain(s.queue, p, t);
    hide WellFormed, CanPop, AfterPop, Copies;
    assert t.uid in s.rows && Plain(p, RunningCopy(t, None, 0)) && Started(s, t).rows.Keys == {u};
    hide GoodCopy, Plain, RunningCopy;
    assert AllPlain(p, Started(s, t).locals);
  }

  lemma StartedParts(s: State, u: Uid, t: Task)
    requires t.uid == u && RowWeight(s.rows, u) == 0
    ensures Started(s, t).started[u] == s.started[u] + 1 && RowWeight(Started(s, t).rows, u) == RunningWeight(u, t)
    ensures InFlight(u, Started(s, t).locals) == RunningWeight(u, t) + InFlight(u, s.locals)
    ensures QueuedWeight(u, t) == 1 + 2 * RunningWeight(u, t)
  {
    var run := RunningCopy(t, None, 0);
    InFlightAdd(u, s.locals, run);
    assert RunningWeight(u, run) == RunningWeight(u, t);
  }

  /** Popping and dispatching `t` locally trades its weight for one start. */
  lemma StartedCharge(s: State, u: Uid, t: Task)
    requires CanPop(s.queue, t) && RowWeight(s.rows, u) == 0 && t.uid == u
    ensures Started(s, t).started[u] == s.started[u] + 1 && Charge(Started(s, t), u) == Charge(s, u)
  {
    StartedParts(s, u, t);
    PopCharge(s, t, u);
    hide QueuedWeight, RunningWeight, RunningCopy, CanPop, RowWeight, AfterPop, Copies, InQueue, InFlight;
  }

  lemma TickStarts(begun: State, t: Task)
    requires begun.tick.Some? && Waiting(t) && t.uid in begun.rows
    requires CanAllocate(t, begun.tick.value.cpu, begun.tick.value.mem)
    ensures var b := begun.tick.value;
            TickPop(begun, t, None, 0) == Started(begun, t)
              .(tick := Some(Budget(b.cpu - t.cpuLimit, b.mem - t.memoryLimit, b.slots - 1)))
  {
    DispatchStarts(begun, t);
  }

  lemma EmptySweep(c: Config, s: State)
    requires c.maxConcurrent > 0
    ensures TickBegin(c, s, [], 0) == s.(tick := Some(Budget(c.totalCpu, c.totalMem, c.maxConcurrent)))
  {
  }

  lemma TickRunsTo(c: Config, s: State, t: Task)
    requires Fits(c, DemandOf(t)) && s.tick.None? && IsSnapshot(s.rows, []) && CanPop(s.queue, t)
    requires Waiting(t) && t.uid in s.rows
    ensures ValidRun(c, s, OneTick(t)) && Run(c, s, OneTick(t)) == Started(s, t)
  {
    var begun := s.(tick := Some(Budget(c.totalCpu, c.totalMem, c.maxConcurrent)));
    EmptySweep(c, s);
    TickStarts(begun, t);
    RunOneTick(c, s, begun, TickPop(begun, t, None, 0), t);
  }

  lemma StartOne(c: Config, s: State, u: Uid, p: Demand, t: Task) returns (next: State)
    requires Fits(c, p) && Solo(s, u, p) && CanPop(s.queue, t)
    requires RowWeight(s.rows, u) == 0 && s.rows[u].status != Running
    ensures ValidRun(c, s, OneTick(t)) && next == Run(c, s, OneTick(t)) && Solo(next, u, p)
    ensures next.started[u] == s.started[u] + 1 && Charge(next, u) == Charge(s, u)
  {
    next := Started(s, t);
    StartedStaysSolo(s, u, p, t);
    StartedCharge(s, u, t);
    TickRunsTo(c, s, t);
  }

  lemma RunOneTick(c: Config, s: State, begun: State, done: State, t: Task)
    requires Enabled(s, ETickBegin([], 0)) && begun == TickBegin(c, s, [], 0)
    requires Enabled(begun, ETickPop(t, None, 0)) && done == TickPop(begun, t, None, 0) && done.tick.Some?
    ensures ValidRun(c, s, OneTick(t)) && Run(c, s, OneTick(t)) == done.(tick := None)
  {
    RunOneEvent(c, s, ETickBegin([], 0));
    RunOneEvent(c, begun, ETickPop(t, None, 0));
    RunOneEvent(c, done, ETickEnd);
    RunConcat(c, begun, [ETickPop(t, None, 0)], [ETickEnd]);
    RunConcat(c, s, [ETickBegin([], 0)], [ETickPop(t, None, 0)] + [ETickEnd]);
    assert OneTick(t) == [ETickBegin([], 0)] + ([ETickPop(t, None, 0)] + [ETickEnd]);
  }

  lemma RunOneEvent(c: Config, s: State, e: Event)
    requires Enabled(s, e)
    ensures ValidRun(c, s, [e]) && Run(c, s, [e]) == Apply(c, s, e)
  {
  }

  /** Some copy is still queued when the charge is not used up. */
  lemma SomethingQueued(s: State, u: Uid)
    requires InQueue(u, Copies(s.queue)) > 0
    ensures !NothingReady(s.queue) || exists t :: t in s.queue.delayed
  {
  }

  lemma PlainPop(s: State, u: Uid, p: Demand) returns (t: Task)
    requires Solo(s, u, p) && !NothingReady(s.queue)
    ensures CanPop(s.queue, t)
  {
    if s.queue.prio != multiset{} {
      t :| t in s.queue.prio;
      forall x | x in s.queue.prio ensures x.priority <= t.priority {
        assert x in Copies(s.queue) && t in Copies(s.queue);
      }
    } else {
      t := s.queue.ready[0];
    }
  }

  /** One more piece of a run that wastes nothing: either it starts the task once, or
      it turns retries left on the row or on a running copy into a queued copy. */
  lemma OneMore(c: Config, s: State, u: Uid, p: Demand) returns (es: seq<Event>, next: State)
    requires Fits(c, p) && Solo(s, u, p) && s.started[u] < Charge(s, u)
    ensures ValidRun(c, s, es) && next == Run(c, s, es) && Solo(next, u, p) && Charge(next, u) == Charge(s, u)
    ensures Progress(s, next, u)
  {
    if RetriesLeft(s.rows[u]) > 0 {
      es := [ERemoteReport(u, FAILURE, 0)];
      RunOneEvent(c, s, es[0]);
      next := ReportRetry(s, u, p);
    } else if s.rows[u].status == Running {
      es := [ERemoteReport(u, FAILURE, 0)];
      RunOneEvent(c, s, es[0]);
      next := ReportFinal(s, u, p);
    } else if t: Task :| t in s.locals && RetriesLeft(t) > 0 {
      es := [ELocalDone(t, FAILURE, 0)];
      RunOneEvent(c, s, es[0]);
      next := LocalRetry(s, u, p, t);
    } else {
      SumZero(ByRunningWeight(u), s.locals);
      SomethingQueued(s, u);
      es, next := StartQueued(c, s, u, p);
    }
  }

  lemma StartQueued(c: Config, s: State, u: Uid, p: Demand) returns (es: seq<Event>, next: State)
    requires Fits(c, p) && Solo(s, u, p)
    requires RowWeight(s.rows, u) == 0 && s.rows[u].status != Running
    requires !NothingReady(s.queue) || exists t :: t in s.queue.delayed
    ensures ValidRun(c, s, es) && next == Run(c, s, es) && Solo(next, u, p) && Charge(next, u) == Charge(s, u)
    ensures next.started[u] == s.started[u] + 1
  {
    if NothingReady(s.queue) {
      var d :| d in s.queue.delayed;
      var released := ReleaseOne(s, u, p, d);
      var t := PlainPop(released, u, p);
      next := StartOne(c, released, u, p, t);
      RunOneEvent(c, s, ERelease([d]));
      RunConcat(c, s, [ERelease([d])], OneTick(t));
      es := [ERelease([d])] + OneTick(t);
    } else {
      var t := PlainPop(s, u, p);
      next := StartOne(c, s, u, p, t);
      es := OneTick(t);
    }
  }

  ghost predicate Progress(s: State, next: State, u: Uid)
    requires u in s.rows && u in next.rows
  {
    || next.started[u] == s.started[u] + 1
    || (next.started[u] == s.started[u]
        && (|| RowWeight(next.rows, u) + InFlight(u, next.locals) < RowWeight(s.rows, u) + InFlight(u, s.locals)
            || (RowWeight(next.rows, u) + InFlight(u, next.locals) == RowWeight(s.rows, u) + InFlight(u, s.locals)
                && s.rows[u].status == Running && next.rows[u].status != Running)))
  }

  /** From any such state the charge can be used up to the last start. */
  lemma {:induction false} UseUp(c: Config, s: State, u: Uid, p: Demand) returns (es: seq<Event>)
    requires Fits(c, p) && Solo(s, u, p)
    ensures ValidRun(c, s, es) && Run(c, s, es).started[u] == Charge(s, u)
    decreases Charge(s, u) - s.started[u], RowWeight(s.rows, u) + InFlight(u, s.locals), s.rows[u].status == Running
  {
    if s.started[u] == Charge(s, u) {
      es := [];
    } else {
      var first, next := OneMore(c, s, u, p);
      var rest := UseUp(c, next, u, p);
      RunConcat(c, s, first, rest);
      es := first + rest;
    }
  }

  /** Main result: the bound of DispatchBound.StartsAreBounded is reached, by every task
      that an idle scheduler can take, whatever its retry limit. */
  lemma BoundIsReached(c: Config, t: Task) returns (es: seq<Event>)
    requires Fits(c, DemandOf(t)) && IsSubmission(map[], t)
    ensures ValidRun(c, INITIAL, es) && ECreate(t) in es
    ensures Run(c, INITIAL, es).started[t.uid] == (Pow3(t.maxRetries + 1) - 1) / 2
  {
    var s := Create(INITIAL, t);
    InitiallyWithinBound(t.uid);
    CreateKeepsWellFormed(INITIAL, t);
    PushCopies(INITIAL.queue, t);
    QueueOne(INITIAL, s, t, t.uid);
    WeightIsHalfPower(t.maxRetries + 1);
    RunOneEvent(c, INITIAL, ECreate(t));
    assert Copies(s.queue) == multiset{t};
    var rest := UseUp(c, s, t.uid, DemandOf(t));
    RunConcat(c, INITIAL, [ECreate(t)], rest);
    es := [ECreate(t)] + rest;
  }

  /** A task with the service's defaults can be started forty times, not the four
      (one run and three retries) that the documentation promises. */
  lemma DocumentedRetryLimitFails(c: Config) returns (es: seq<Event>)
    requires c.maxConcurrent > 0
    ensures ValidRun(c, INITIAL, es)
    ensures var t := NewTask("u", "n", "true"); t.maxRetries == 3 && Run(c, INITIAL, es).started["u"] == 40
  {
    es := BoundIsReached(c, NewTask("u", "n", "true"));
    assert Pow3(4) == 81 by { assert Pow3(2) == 9; }
  }

  // ----- Exactly how many starts are possible -----

  lemma CreateOtherCharge(s: State, t: Task, u: Uid)
    requires t.uid != u
    ensures Charge(Create(s, t), u) == Charge(s, u)
  {
    PushCopies(s.queue, t);
    InQueueAdd(u, Copies(s.queue), t);
    hide Copies, InQueue, InFlight;
  }

  /** No step adds to what a task can still spend, and its retry limit never changes. */
  lemma StepSpends(c: Config, s: State, e: Event, u: Uid)
    requires WellFormed(s) && Enabled(s, e) && u in s.rows
    ensures var s' := Apply(c, s, e);
            u in s'.rows && s'.rows[u].maxRetries == s.rows[u].maxRetries && Charge(s', u) <= Charge(s, u)
  {
    hide Charge, WellFormed;
    if e.ECreate? {
      CreateOtherCharge(s, e.task, u);
    } else {
      StepKeepsLimits(c, s, e);
      StepCharge(c, s, e, u);
      hide Apply, Enabled;
    }
  }

  lemma {:induction false} RunSpends(c: Config, s: State, es: seq<Event>, u: Uid)
    requires WellFormed(s) && ValidRun(c, s, es) && u in s.rows
    ensures var s' := Run(c, s, es);
            && u in s'.rows && s'.rows[u].maxRetries == s.rows[u].maxRetries
            && s'.started[u] <= Charge(s', u) <= Charge(s, u)
    decreases |es|
  {
    hide WellFormed, Apply, Enabled;
    if es != [] {
      StepKeepsWellFormed(c, s, es[0]);
      StepSpends(c, s, es[0], u);
      RunSpends(c, Apply(c, s, es[0]), es[1..], u);
    }
  }

  /** Main result: from a state with this one task, which an idle scheduler can take, the
      most starts that any run can reach is exactly its charge. */
  lemma ChargeIsTheMost(c: Config, s: State, u: Uid, p: Demand)
    requires Fits(c, p) && Solo(s, u, p)
    ensures forall es :: ValidRun(c, s, es) ==> Run(c, s, es).started[u] <= Charge(s, u)
    ensures exists es :: ValidRun(c, s, es) && Run(c, s, es).started[u] == Charge(s, u)
  {
    forall es | ValidRun(c, s, es) ensures Run(c, s, es).started[u] <= Charge(s, u) {
      RunSpends(c, s, es, u);
    }
    var most := UseUp(c, s, u, p);
  }

  /** One run and one more for each retry: in every run that submits `t`. */
  ghost predicate KeepsPromise(c: Config, es: seq<Event>, t: Task) {
    ValidRun(c, INITIAL, es) && ECreate(t) in es ==> Run(c, INITIAL, es).started[t.uid] <= t.maxRetries + 1
  }

  /** A tick never hands out more than the scheduler has. */
  ghost predicate BudgetWithin(c: Config, s: State) {
    s.tick.Some? ==>
      s.tick.value.cpu <= c.totalCpu && s.tick.value.mem <= c.totalMem && s.tick.value.slots <= c.maxConcurrent
  }

  lemma {:induction false} LimitsAddUp(ts: seq<Task>)
    requires forall t :: t in ts ==> t.cpuLimit >= 0 && t.memoryLimit >= 0
    ensures CpuOf(ts) >= 0 && MemOf(ts) >= 0
    decreases |ts|
  {
    if ts != [] {
      assert ts[0] in ts;
      LimitsAddUp(ts[1..]);
    }
  }

  lemma {:induction false} SweepKeepsTick(s: State, ts: seq<Task>, now: int)
    ensures FailTimedOut(s, ts, now).tick == s.tick
    decreases |ts|
  {
    if ts != [] {
      SweepKeepsTick(if TimedOut(ts[0], now) then FailTask(s, ts[0], TIMED_OUT, now) else s, ts[1..], now);
    }
  }

  lemma TickBeginWithin(c: Config, s: State, snapshot: seq<Task>, now: int)
    requires WellFormed(s) && BudgetWithin(c, s) && IsSnapshot(s.rows, snapshot)
    ensures BudgetWithin(c, TickBegin(c, s, snapshot, now))
  {
    forall t | t in snapshot ensures t.cpuLimit >= 0 && t.memoryLimit >= 0 { assert GoodCopy(s.rows, s.rows[t.uid]); }
    LimitsAddUp(snapshot);
    SweepKeepsTick(s, snapshot, now);
    hide FailTimedOut, CpuOf, MemOf;
  }

  lemma StepKeepsWithin(c: Config, s: State, e: Event)
    requires WellFormed(s) && Enabled(s, e) && BudgetWithin(c, s)
    ensures BudgetWithin(c, Apply(c, s, e))
  {
    hide TickBegin, FailTask, IsSnapshot, CanPop, Dispatch;
    match e {
      case ETickBegin(snapshot, now) => TickBeginWithin(c, s, snapshot, now);
      case ETickPop(t, node, now) =>
        PopKeepsWellFormed(s, t);
        TickPopTick(s, t, node, now);
        hide TickPop, WellFormed;
      case ELocalDone(t, r, now) => CompleteKeepsTick(s.(locals := s.locals - multiset{t}), t, r, now);
      case ERemoteReport(uid, r, now) =>
        if uid in s.rows { CompleteKeepsTick(s.(pulled := s.pulled - multiset{uid}), s.rows[uid], r, now); }
        hide CompleteTask;
      case _ =>
    }
  }

  lemma CompleteKeepsTick(s: State, t: Task, r: TaskResult, now: int)
    ensures CompleteTask(s, t, r, now).tick == s.tick
  {
  }

  lemma TickPopTick(s: State, t: Task, node: Option<NodeId>, now: int)
    requires s.tick.Some? && t.cpuLimit >= 0 && t.memoryLimit >= 0
    ensures var s' := TickPop(s, t, node, now);
            s'.tick.Some? && s'.tick.value.cpu <= s.tick.value.cpu && s'.tick.value.mem <= s.tick.value.mem
            && s'.tick.value.slots <= s.tick.value.slots
  {
    hide Dispatch;
  }

  /** The task is unknown, or it is too large, and it has not been started. */
  ghost predicate TooLarge(c: Config, s: State, u: Uid) {
    s.started[u] == 0 && (u in s.rows ==> !Fits(c, DemandOf(s.rows[u])))
  }

  lemma TickPopPassesOver(c: Config, s: State, t: Task, node: Option<NodeId>, now: int, u: Uid)
    requires WellFormed(s) && Enabled(s, ETickPop(t, node, now)) && BudgetWithin(c, s) && TooLarge(c, s, u)
    ensures TickPop(s, t, node, now).started[u] == 0
  {
    PopKeepsWellFormed(s, t);
    hide WellFormed, CanPop, Dispatch;
    DispatchStartsAtMostOnce(s.(queue := AfterPop(s.queue, t)), t, node, now);
    if CanAllocate(t, s.tick.value.cpu, s.tick.value.mem) { AllocatedFits(c, s, t); }
    hide Fits, BudgetWithin, GoodCopy, CanAllocate;
  }

  lemma AllocatedFits(c: Config, s: State, t: Task)
    requires BudgetWithin(c, s) && s.tick.Some? && s.tick.value.slots > 0 && t.cpuLimit >= 0 && t.memoryLimit >= 0
    requires CanAllocate(t, s.tick.value.cpu, s.tick.value.mem)
    ensures Fits(c, DemandOf(t))
  {
  }

  lemma StepPassesOver(c: Config, s: State, e: Event, u: Uid)
    requires WellFormed(s) && Enabled(s, e) && BudgetWithin(c, s) && TooLarge(c, s, u)
    ensures Apply(c, s, e).started[u] == 0
  {
    if e.ETickPop? {
      TickPopPassesOver(c, s, e.task, e.node, e.now, u);
    } else {
      HandlersStartNothing(c, s, e);
      hide Apply, Enabled, WellFormed;
    }
  }

  /** A task that an idle scheduler cannot take is never started. */
  lemma {:induction false} TooLargeNeverStarts(c: Config, s: State, es: seq<Event>, t: Task)
    requires WellFormed(s) && ValidRun(c, s, es) && BudgetWithin(c, s) && TooLarge(c, s, t.uid)
    requires (t.uid in s.rows && SameSubmission(t, s.rows[t.uid])) || (t.uid !in s.rows && ECreate(t) in es)
    requires !Fits(c, DemandOf(t))
    ensures Run(c, s, es).started[t.uid] == 0
    decreases |es|
  {
    hide Fits, BudgetWithin;
    if es != [] {
      StepKeepsWellFormed(c, s, es[0]);
      StepKeepsWithin(c, s, es[0]);
      StepPassesOver(c, s, es[0], t.uid);
      NextTooLarge(c, s, es, t);
      hide Apply, Enabled, WellFormed, TooLarge;
      TooLargeNeverStarts(c, Apply(c, s, es[0]), es[1..], t);
    }
  }

  lemma NextTooLarge(c: Config, s: State, es: seq<Event>, t: Task)
    requires es != [] && WellFormed(s) && Enabled(s, es[0]) && Apply(c, s, es[0]).started[t.uid] == 0
    requires ValidRun(c, Apply(c, s, es[0]), es[1..]) && !Fits(c, DemandOf(t))
    requires (t.uid in s.rows && SameSubmission(t, s.rows[t.uid])) || (t.uid !in s.rows && ECreate(t) in es)
    ensures var s' := Apply(c, s, es[0]);
            && TooLarge(c, s', t.uid)
            && ((t.uid in s'.rows && SameSubmission(t, s'.rows[t.uid])) || (t.uid !in s'.rows && ECreate(t) in es[1..]))
  {
    hide Fits;
    if t.uid in s.rows {
      StepKeepsRow(c, s, es[0], t.uid);
      hide Apply, Enabled, WellFormed;
    } else {
      NewRows(c, s, es, t);
      hide Apply, Enabled, WellFormed;
    }
  }

  /** The row of `t` comes with `t` itself: nobody else submits its uid before. */
  lemma NewRows(c: Config, s: State, es: seq<Event>, t: Task)
    requires es != [] && WellFormed(s) && Enabled(s, es[0]) && t.uid !in s.rows && ECreate(t) in es
    requires ValidRun(c, Apply(c, s, es[0]), es[1..])
    ensures var s' := Apply(c, s, es[0]);
            (t.uid in s'.rows && SameSubmission(t, s'.rows[t.uid])) || (t.uid !in s'.rows && ECreate(t) in es[1..])
  {
    if es[0].ECreate? {
      if es[0] != ECreate(t) && es[0].task.uid == t.uid {
        StepKeepsWellFormed(c, s, es[0]);
        NoSecondSubmission(c, Apply(c, s, es[0]), es[1..], t);
      }
      hide ValidRun;
    } else {
      StepKeepsLimits(c, s, es[0]);
      hide Apply, Enabled, WellFormed, ValidRun;
    }
  }

  lemma {:induction false} NoSecondSubmission(c: Config, s: State, es: seq<Event>, t: Task)
    requires WellFormed(s) && ValidRun(c, s, es) && t.uid in s.rows
    ensures ECreate(t) !in es
    decreases |es|
  {
    if es != [] {
      StepKeepsWellFormed(c, s, es[0]);
      StepKeepsRow(c, s, es[0], t.uid);
      assert es[0] != ECreate(t);
      hide Apply, Enabled, WellFormed;
      NoSecondSubmission(c, Apply(c, s, es[0]), es[1..], t);
    }
  }

  /** Main result: the documented promise holds in every run exactly for tasks that have no
      retries or that the scheduler, even idle, cannot take. */
  lemma PromiseHoldsIff(c: Config, t: Task)
    requires IsSubmission(map[], t)
    ensures (forall es :: KeepsPromise(c, es, t)) <==> t.maxRetries == 0 || !Fits(c, DemandOf(t))
  {
    InitiallyWithinBound(t.uid);
    if t.maxRetries == 0 || !Fits(c, DemandOf(t)) {
      forall es ensures KeepsPromise(c, es, t) {
        if ValidRun(c, INITIAL, es) && ECreate(t) in es { PromiseKept(c, es, t); }
      }
    } else {
      var es := BoundIsReached(c, t);
      MoreThanPromised(t.maxRetries);
      assert !KeepsPromise(c, es, t);
    }
  }

  lemma PromiseKept(c: Config, es: seq<Event>, t: Task)
    requires ValidRun(c, INITIAL, es) && ECreate(t) in es && IsSubmission(map[], t)
    requires t.maxRetries == 0 || !Fits(c, DemandOf(t))
    ensures Run(c, INITIAL, es).started[t.uid] <= t.maxRetries + 1
  {
    InitiallyWithinBound(t.uid);
    if t.maxRetries == 0 {
      SubmissionIsKept(c, INITIAL, es, t);
      StartsAreBounded(c, es, t.uid);
    } else {
      TooLargeNeverStarts(c, INITIAL, es, t);
    }
  }

  lemma {:induction false} MoreThanPromised(n: nat)
    requires n > 0
    ensures (Pow3(n + 1) - 1) / 2 > n + 1
  {
    if n > 1 { MoreThanPromised(n - 1); }
  }
}
