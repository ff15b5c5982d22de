/** What the tasks that execute can take when runs are not guarded
    (internal/scheduler/scheduler.go, tick; internal/service/task_service.go, CancelTask): a
    row can leave Running while its process works on, so that other tasks get its share. */
module Overcommit {
  import opened Sums
  import opened Tasks
  import opened TaskQueue
  import opened Lifecycle
  import opened DispatchBound
  import opened Ledger
  import opened BoundReached
  import opened Executions

  lemma {:induction false} StepsConcat(c: Config, m: Machine, sts: seq<Step>, more: seq<Step>)
    requires CanSteps(c, m, sts) && CanSteps(c, Steps(c, m, sts), more)
    ensures CanSteps(c, m, sts + more) && Steps(c, m, sts + more) == Steps(c, Steps(c, m, sts), more)
    decreases |sts|
  {
    hide CanStep, After;
    if sts == [] {
      assert sts + more == more;
    } else {
      assert sts + more == [sts[0]] + (sts[1..] + more);
      StepsConcat(c, After(c, m, sts[0]), sts[1..], more);
    }
  }

  function Lift(es: seq<Event>): seq<Step> {
    if es == [] then [] else [SEvent(es[0])] + Lift(es[1..])
  }

  /** A run of the lifecycle in which no local run ends, as a run of the machine. */
  lemma {:induction false} LiftRuns(c: Config, m: Machine, es: seq<Event>)
    requires ValidRun(c, m.s, es) && forall e :: e in es ==> !e.ELocalDone?
    ensures CanSteps(c, m, Lift(es)) && Steps(c, m, Lift(es)) == m.(s := Run(c, m.s, es))
    decreases |es|
  {
    hide Apply, Enabled;
    if es != [] {
      assert es[0] in es;
      LiftRuns(c, m.(s := Apply(c, m.s, es[0])), es[1..]);
    }
  }

  lemma TakeRuns(c: Config, m: Machine, t: Task)
    requires CanStep(c, m, STakeSlot(t))
    ensures CanSteps(c, m, [STakeSlot(t)])
    ensures Steps(c, m, [STakeSlot(t)]) == m.(executing := m.executing + multiset{t})
  {
    var next := After(c, m, STakeSlot(t));
    assert CanSteps(c, next, []) && Steps(c, next, []) == next;
  }

  /** After the run `es`, which ends no local run, the local run `t` takes a slot. */
  lemma RunThenTake(c: Config, m: Machine, es: seq<Event>, t: Task) returns (sts: seq<Step>)
    requires ValidRun(c, m.s, es) && forall e :: e in es ==> !e.ELocalDone?
    requires CanStep(c, m.(s := Run(c, m.s, es)), STakeSlot(t))
    ensures CanSteps(c, m, sts)
    ensures Steps(c, m, sts) == Machine(Run(c, m.s, es), m.executing + multiset{t}, m.ended)
  {
    LiftRuns(c, m, es);
    TakeRuns(c, m.(s := Run(c, m.s, es)), t);
    StepsConcat(c, m, Lift(es), [STakeSlot(t)]);
    sts := Lift(es) + [STakeSlot(t)];
  }

  /** Both local runs of a run execute when there are two slots. */
  lemma BothExecute(c: Config, es: seq<Event>, fs: seq<Event>, a: Task, b: Task) returns (sts: seq<Step>)
    requires c.maxConcurrent >= 2
    requires forall e :: e in es || e in fs ==> !e.ELocalDone?
    requires ValidRun(c, INITIAL, es) && ValidRun(c, Run(c, INITIAL, es), fs)
    requires Run(c, INITIAL, es).locals == multiset{a}
    requires Run(c, Run(c, INITIAL, es), fs).locals == multiset{a} + multiset{b}
    ensures CanSteps(c, START, sts) && Steps(c, START, sts).executing == multiset{a} + multiset{b}
  {
    var one := RunThenTake(c, START, es, a);
    var m := Steps(c, START, one);
    assert m.executing == multiset{a};
    hide Steps, CanSteps, Run, ValidRun;
    var two := RunThenTake(c, m, fs, b);
    StepsConcat(c, START, one, two);
    sts := one + two;
  }

  lemma LoadOfTwo(r: Resource, a: Task, b: Task)
    ensures Load(r, multiset{a} + multiset{b}) == Use(r, a) + Use(r, b)
  {
    SumAdd(ByUse(r), multiset{a}, b);
    SumAdd(ByUse(r), multiset{}, a);
    assert multiset{} + multiset{a} == multiset{a};
    SumZero(ByUse(r), multiset{});
  }

  /** A submission that an idle scheduler takes, that times out and may be retried. */
  ghost predicate CanBeSwept(c: Config, t: Task) {
    IsSubmission(map[], t) && Fits(c, DemandOf(t)) && t.maxRetries > 0 && t.timeoutSec > 0
  }

  /** Submitted and dispatched locally at time zero. */
  function RunsAlone(t: Task): State {
    Started(Create(INITIAL, t), t)
  }

  lemma AloneIs(t: Task)
    ensures RunsAlone(t) == State(map[t.uid := RunningCopy(t, None, 0)], TaskQueue.EMPTY,
                                  multiset{RunningCopy(t, None, 0)}, map[], multiset{}, None, multiset{t.uid})
  {
  }

  lemma OneRuns(c: Config, t: Task) returns (es: seq<Event>)
    requires IsSubmission(map[], t) && Fits(c, DemandOf(t))
    ensures forall e :: e in es ==> !e.ELocalDone?
    ensures ValidRun(c, INITIAL, es) && Run(c, INITIAL, es) == RunsAlone(t)
  {
    var s := Create(INITIAL, t);
    es := [ECreate(t)] + OneTick(t);
    RunOneEvent(c, INITIAL, ECreate(t));
    assert CanPop(s.queue, t);
    TickRunsTo(c, s, t);
    RunConcat(c, INITIAL, [ECreate(t)], OneTick(t));
  }

  /** The copy that a sweep requeues. */
  function Swept(t: Task): Task {
    Retried(RunningCopy(t, None, 0), TIMED_OUT)
  }

  function AfterSweep(t: Task): State {
    RunsAlone(t).(rows := map[t.uid := Swept(t)], queue := Queue(multiset{}, [], multiset{Swept(t)}))
  }

  function Requeued(t: Task): State {
    RunsAlone(t).(rows := map[t.uid := Swept(t)], queue := Queue(multiset{}, [Swept(t)], multiset{}))
  }

  lemma FailureRequeuesRow(c: Config, t: Task, now: int)
    requires CanBeSwept(c, t)
    ensures FailTask(RunsAlone(t), RunningCopy(t, None, 0), TIMED_OUT, now) == AfterSweep(t)
  {
    AloneIs(t);
    hide RunsAlone;
  }

  lemma SweepRequeues(c: Config, t: Task, now: int)
    requires CanBeSwept(c, t) && now > t.timeoutSec * SECOND
    ensures var run := RunningCopy(t, None, 0);
            IsSnapshot(RunsAlone(t).rows, [run]) && FailTimedOut(RunsAlone(t), [run], now) == AfterSweep(t)
  {
    var s, run := RunsAlone(t), RunningCopy(t, None, 0);
    AloneIs(t);
    assert TimedOut(run, now);
    FailureRequeuesRow(c, t, now);
    hide RunsAlone, FailTask, AfterSweep;
    assert [run][1..] == [];
    assert FailTimedOut(AfterSweep(t), [], now) == AfterSweep(t);
  }

  /** The tick that sweeps the task dispatches nothing; the requeued copy comes due. */
  function SweepTick(t: Task, now: int): seq<Event> {
    [ETickBegin([RunningCopy(t, None, 0)], now)] + ([ETickEnd] + [ERelease([Swept(t)])])
  }

  lemma SweepTickRuns(c: Config, t: Task, now: int)
    requires CanBeSwept(c, t) && now > t.timeoutSec * SECOND && c.maxConcurrent >= 2
    ensures ValidRun(c, RunsAlone(t), SweepTick(t, now)) && Run(c, RunsAlone(t), SweepTick(t, now)) == Requeued(t)
  {
    var s, run := RunsAlone(t), RunningCopy(t, None, 0);
    SweepRequeues(c, t, now);
    AloneIs(t);
    hide RunsAlone, FailTimedOut;
    var begun := TickBegin(c, s, [run], now);
    assert begun.tick.Some? && begun.(tick := None) == AfterSweep(t);
    RunOneEvent(c, s, ETickBegin([run], now));
    RunOneEvent(c, begun, ETickEnd);
    ReleaseRuns(c, t);
    hide Run, ValidRun, TickBegin;
    RunConcat(c, begun, [ETickEnd], [ERelease([Swept(t)])]);
    RunConcat(c, s, [ETickBegin([run], now)], [ETickEnd] + [ERelease([Swept(t)])]);
  }

  lemma ReleaseRuns(c: Config, t: Task)
    ensures var es := [ERelease([Swept(t)])];
            ValidRun(c, AfterSweep(t), es) && Run(c, AfterSweep(t), es) == Requeued(t)
  {
    hide Swept, RunsAlone;
    assert multiset([Swept(t)]) == multiset{Swept(t)};
    RunOneEvent(c, AfterSweep(t), ERelease([Swept(t)]));
  }

  /** The run that was swept and the one that its requeued copy became. */
  function BothRuns(t: Task): multiset<Task> {
    multiset{RunningCopy(t, None, 0)} + multiset{RunningCopy(Swept(t), None, 0)}
  }

  lemma RequeuedIsReady(c: Config, t: Task)
    requires CanBeSwept(c, t)
    ensures var s := Requeued(t);
            && IsSnapshot(s.rows, []) && CanPop(s.queue, Swept(t)) && s.tick.None?
            && Waiting(Swept(t)) && Swept(t).uid in s.rows && Fits(c, DemandOf(Swept(t)))
            && Started(s, Swept(t)).locals == BothRuns(t)
  {
    AloneIs(t);
    hide RunsAlone;
  }

  lemma SecondTickRuns(c: Config, t: Task)
    requires CanBeSwept(c, t)
    ensures var tick := OneTick(Swept(t));
            ValidRun(c, Requeued(t), tick) && Run(c, Requeued(t), tick).locals == BothRuns(t)
  {
    RequeuedIsReady(c, t);
    hide Requeued, BothRuns, Swept, CanBeSwept;
    TickRunsTo(c, Requeued(t), Swept(t));
    hide ValidRun, Run, Started, OneTick;
  }

  lemma NoneEnds(t: Task, now: int)
    ensures forall e :: e in SweepTick(t, now) + OneTick(Swept(t)) ==> !e.ELocalDone?
  {
    hide Swept, RunningCopy;
  }

  lemma StartsAgain(c: Config, t: Task) returns (fs: seq<Event>)
    requires CanBeSwept(c, t) && c.maxConcurrent >= 2
    ensures forall e :: e in fs ==> !e.ELocalDone?
    ensures ValidRun(c, RunsAlone(t), fs) && Run(c, RunsAlone(t), fs).locals == BothRuns(t)
  {
    var now := t.timeoutSec * SECOND + 1;
    SweepTickRuns(c, t, now);
    SecondTickRuns(c, t);
    NoneEnds(t, now);
    hide Run, ValidRun, RunsAlone, Requeued, Swept, CanBeSwept, BothRuns, SweepTick, OneTick;
    fs := SweepTick(t, now) + OneTick(Swept(t));
    RunConcat(c, RunsAlone(t), SweepTick(t, now), OneTick(Swept(t)));
  }

  lemma LoadIsDouble(t: Task, r: Resource)
    requires IsSubmission(map[], t)
    ensures Load(r, BothRuns(t)) == 2 * Limit(r, t)
  {
    LoadOfTwo(r, RunningCopy(t, None, 0), RunningCopy(Swept(t), None, 0));
    hide Load;
  }

  /** A sweep fails the row of a task whose process still runs; the next tick starts the
      task again, and the two executing copies together take twice its limits, which the
      scheduler need not have. */
  lemma SweptTasksOvercommit(c: Config, t: Task) returns (sts: seq<Step>)
    requires CanBeSwept(c, t) && c.maxConcurrent >= 2
    ensures CanSteps(c, START, sts)
    ensures forall r :: Load(r, Steps(c, START, sts).executing) == 2 * Limit(r, t)
  {
    var es := OneRuns(c, t);
    AloneIs(t);
    var fs := StartsAgain(c, t);
    hide Run, ValidRun, RunsAlone, CanSteps, Steps, Swept, RunningCopy, Load, Fits, IsSubmission;
    sts := BothExecute(c, es, fs, RunningCopy(t, None, 0), RunningCopy(Swept(t), None, 0));
    forall r ensures Load(r, Steps(c, START, sts).executing) == 2 * Limit(r, t) { LoadIsDouble(t, r); }
  }

  /** The row of `t` is cancelled while its process runs, and `v` is submitted. */
  function BesideCancelled(t: Task, v: Task): State {
    Create(Cancel(RunsAlone(t), t.uid), v)
  }

  lemma CancelledIs(t: Task)
    ensures Cancel(RunsAlone(t), t.uid)
         == RunsAlone(t).(rows := map[t.uid := RunningCopy(t, None, 0).(status := Canceled)])
  {
    AloneIs(t);
    hide RunsAlone;
  }

  lemma CancelledMakesRoom(t: Task, v: Task)
    requires IsSubmission(map[], v) && t.uid != v.uid
    ensures IsSubmission(Cancel(RunsAlone(t), t.uid).rows, v)
    ensures var s := BesideCancelled(t, v);
            && IsSnapshot(s.rows, []) && CanPop(s.queue, v) && s.tick.None? && Waiting(v) && v.uid in s.rows
            && s.locals == multiset{RunningCopy(t, None, 0)}
  {
    CancelledIs(t);
    AloneIs(t);
    hide RunsAlone, Cancel, RunningCopy;
  }

  lemma CancelThenCreate(c: Config, t: Task, v: Task)
    requires IsSubmission(Cancel(RunsAlone(t), t.uid).rows, v)
    ensures var es := [ECancel(t.uid)] + [ECreate(v)];
            ValidRun(c, RunsAlone(t), es) && Run(c, RunsAlone(t), es) == BesideCancelled(t, v)
  {
    hide RunsAlone, Cancel, Create, IsSubmission;
    RunOneEvent(c, RunsAlone(t), ECancel(t.uid));
    RunOneEvent(c, Cancel(RunsAlone(t), t.uid), ECreate(v));
    RunConcat(c, RunsAlone(t), [ECancel(t.uid)], [ECreate(v)]);
  }

  lemma BesideRuns(c: Config, t: Task, v: Task) returns (fs: seq<Event>)
    requires IsSubmission(map[], v) && t.uid != v.uid && Fits(c, DemandOf(v))
    ensures forall e :: e in fs ==> !e.ELocalDone?
    ensures ValidRun(c, RunsAlone(t), fs)
    ensures Run(c, RunsAlone(t), fs).locals == multiset{RunningCopy(t, None, 0)} + multiset{RunningCopy(v, None, 0)}
  {
    var before := [ECancel(t.uid)] + [ECreate(v)];
    fs := before + OneTick(v);
    assert forall e :: e in fs ==> !e.ELocalDone?;
    CancelledMakesRoom(t, v);
    CancelThenCreate(c, t, v);
    hide RunsAlone, IsSubmission, BesideCancelled, RunningCopy;
    TickRunsTo(c, BesideCancelled(t, v), v);
    hide Run, ValidRun, OneTick, IsSnapshot, CanPop;
    RunConcat(c, RunsAlone(t), before, OneTick(v));
  }

  /** A cancellation does it as well: the process of the cancelled task still runs, but its
      row no longer counts, and any other task that fits alone is started beside it. */
  lemma CancelledTasksOvercommit(c: Config, t: Task, v: Task) returns (sts: seq<Step>)
    requires IsSubmission(map[], t) && Fits(c, DemandOf(t)) && IsSubmission(map[], v) && Fits(c, DemandOf(v))
    requires t.uid != v.uid && c.maxConcurrent >= 2
    ensures CanSteps(c, START, sts)
    ensures forall r :: Load(r, Steps(c, START, sts).executing) == Limit(r, t) + Limit(r, v)
  {
    var a, b := RunningCopy(t, None, 0), RunningCopy(v, None, 0);
    var es := OneRuns(c, t);
    AloneIs(t);
    var fs := BesideRuns(c, t, v);
    forall r ensures Load(r, multiset{a} + multiset{b}) == Limit(r, t) + Limit(r, v) { LoadOfTwo(r, a, b); }
    hide Run, ValidRun, RunsAlone, CanSteps, Steps, RunningCopy, Load, Fits, IsSubmission;
    sts := BothExecute(c, es, fs, a, b);
  }

  // ----- How far beyond the limits -----

  /** Every local run is of a task that an idle scheduler can take. */
  ghost predicate AllFit(c: Config, m: multiset<Task>) {
    forall t :: t in m ==> Fits(c, DemandOf(t))
  }

  lemma PlaceFits(c: Config, s: State, t: Task, node: Option<NodeId>, now: int)
    requires s.tick.Some? && s.tick.value.slots > 0 && BudgetWithin(c, s) && AllFit(c, s.locals)
    requires Waiting(t) && t.uid in s.rows && t.cpuLimit >= 0 && t.memoryLimit >= 0
    ensures AllFit(c, TickPlace(s, t, node, now).locals)
  {
    if CanAllocate(t, s.tick.value.cpu, s.tick.value.mem) {
      DispatchSucceeds(s, t, node, now);
      assert t.cpuLimit <= c.totalCpu && t.memoryLimit <= c.totalMem;
      hide Dispatch, GoesRemote, NodeQueue;
    }
  }

  lemma TickPopFits(c: Config, s: State, t: Task, node: Option<NodeId>, now: int)
    requires WellFormed(s) && AllFit(c, s.locals) && Enabled(s, ETickPop(t, node, now)) && BudgetWithin(c, s)
    ensures AllFit(c, TickPop(s, t, node, now).locals)
  {
    PopKeepsWellFormed(s, t);
    hide TickPlace, WellFormed, AllFit, CanPop;
    PlaceFits(c, s.(queue := AfterPop(s.queue, t)), t, node, now);
  }

  lemma StepKeepsFit(c: Config, s: State, e: Event)
    requires WellFormed(s) && AllFit(c, s.locals) && Enabled(s, e) && BudgetWithin(c, s)
    ensures AllFit(c, Apply(c, s, e).locals)
  {
    hide Fits, WellFormed, BudgetWithin;
    match e {
      case ETickPop(t, node, now) => TickPopFits(c, s, t, node, now);
      case ECreate(_) =>
      case _ =>
        NothingNewLocal(c, s, e);
        hide Apply, Enabled;
    }
  }

  /** Only the dispatch loop adds a local run. */
  lemma NothingNewLocal(c: Config, s: State, e: Event)
    requires Enabled(s, e) && !e.ETickPop?
    ensures Apply(c, s, e).locals <= s.locals
  {
    hide FailTimedOut, CompleteTask, IsSnapshot;
    match e {
      case ETickBegin(snapshot, now) => SweepKeepsLocals(s, snapshot, now);
      case ELocalDone(t, r, now) => CompleteTaskKeepsLocals(s.(locals := s.locals - multiset{t}), t, r, now);
      case ERemoteReport(uid, r, now) =>
        if uid in s.rows { CompleteTaskKeepsLocals(s.(pulled := s.pulled - multiset{uid}), s.rows[uid], r, now); }
      case _ =>
    }
  }

  ghost predicate Capped(c: Config, m: Machine) {
    WithinSlots(c, m) && WellFormed(m.s) && BudgetWithin(c, m.s) && AllFit(c, m.s.locals)
  }

  lemma StepKeepsCapped(c: Config, m: Machine, st: Step)
    requires Capped(c, m) && CanStep(c, m, st)
    ensures Capped(c, After(c, m, st))
  {
    StepKeepsSlots(c, m, st);
    hide WithinSlots, WellFormed, BudgetWithin, AllFit;
    if st.SEvent? {
      StepKeepsWellFormed(c, m.s, st.event);
      StepKeepsWithin(c, m.s, st.event);
      StepKeepsFit(c, m.s, st.event);
      hide Apply, Enabled;
    }
  }

  lemma {:induction false} StepsKeepCapped(c: Config, m: Machine, sts: seq<Step>)
    requires Capped(c, m) && CanSteps(c, m, sts)
    ensures Capped(c, Steps(c, m, sts))
    decreases |sts|
  {
    hide Capped, CanStep, After;
    if sts != [] {
      StepKeepsCapped(c, m, sts[0]);
      StepsKeepCapped(c, After(c, m, sts[0]), sts[1..]);
    }
  }

  lemma {:induction false} SumIsCapped<T>(f: T -> nat, m: multiset<T>, k: nat)
    requires forall x :: x in m ==> f(x) <= k
    ensures Sum(f, m) <= |m| * k
    decreases |m|
  {
    if m == multiset{} {
      SumZero(f, m);
    } else {
      var x :| x in m;
      var rest := m - multiset{x};
      SumRemove(f, m, x);
      SumIsCapped(f, rest, k);
      OneMoreTimes(|rest|, k);
      hide Sum;
      assert |m| == |rest| + 1;
    }
  }

  lemma OneMoreTimes(n: nat, k: nat)
    ensures (n + 1) * k == n * k + k
  {
  }

  /** The most that one execution can take. */
  function Most(c: Config, r: Resource): nat {
    if r == Slot then 1 else Total(c, r)
  }

  lemma FittingUse(c: Config, r: Resource, t: Task)
    requires Fits(c, DemandOf(t))
    ensures Use(r, t) <= Most(c, r)
  {
  }

  lemma FittingLoad(c: Config, r: Resource, m: multiset<Task>)
    requires AllFit(c, m)
    ensures Load(r, m) <= |m| * Most(c, r)
  {
    hide Fits, Use, Most;
    forall t | t in m ensures ByUse(r)(t) <= Most(c, r) { FittingUse(c, r, t); }
    SumIsCapped(ByUse(r), m, Most(c, r));
  }

  /** In every run, guarded or not, each executing task adds at most the scheduler's whole
      CPU or memory. */
  lemma ExecutionsAreCapped(c: Config, sts: seq<Step>, r: Resource)
    requires CanSteps(c, START, sts)
    ensures var m := Steps(c, START, sts);
            |m.executing| <= c.maxConcurrent && Load(r, m.executing) <= |m.executing| * Most(c, r)
  {
    InitiallyWithinBound("");
    StepsKeepCapped(c, START, sts);
    hide Steps, CanSteps, WellFormed, BudgetWithin, Load, Most, Fits;
    FittingLoad(c, r, Steps(c, START, sts).executing);
  }

  ghost predicate FitsAlways(c: Config, r: Resource) {
    forall sts :: CanSteps(c, START, sts) ==> Load(r, Steps(c, START, sts).executing) <= Total(c, r)
  }

  lemma ShareFits(c: Config, r: Resource, sts: seq<Step>)
    requires CanSteps(c, START, sts) && (r == Slot || c.maxConcurrent <= 1 || Total(c, r) == 0)
    ensures Load(r, Steps(c, START, sts).executing) <= Total(c, r)
  {
    ExecutionsAreCapped(c, sts, r);
    hide Steps, CanSteps, Load, Most;
    ShareOfAll(c, r, |Steps(c, START, sts).executing|);
  }

  lemma ShareOfAll(c: Config, r: Resource, n: nat)
    requires n <= c.maxConcurrent && (r == Slot || c.maxConcurrent <= 1 || Total(c, r) == 0)
    ensures n * Most(c, r) <= Total(c, r)
  {
    if r != Slot {
      assert Most(c, r) == Total(c, r);
      SmallProduct(n, Total(c, r));
    }
  }

  lemma TwiceTheWhole(c: Config, r: Resource)
    requires r != Slot && c.maxConcurrent > 1 && Total(c, r) > 0
    ensures !FitsAlways(c, r)
  {
    var t := NewTask("u", "n", "true").(cpuLimit := c.totalCpu, memoryLimit := c.totalMem);
    assert Limit(r, t) == Total(c, r);
    var sts := SweptTasksOvercommit(c, t);
    hide Steps, CanSteps, Load, Limit, Total;
    assert Load(r, Steps(c, START, sts).executing) > Total(c, r);
  }

  /** Main result: the tasks that execute fit into a limit of the scheduler in every run
      exactly if it is the number of slots, or there is one slot, or there is nothing to fit
      into. */
  lemma ExecutionsFitIff(c: Config, r: Resource)
    ensures FitsAlways(c, r) <==> r == Slot || c.maxConcurrent <= 1 || Total(c, r) == 0
  {
    if r == Slot || c.maxConcurrent <= 1 || Total(c, r) == 0 {
      hide Steps, CanSteps, Load;
      forall sts | CanSteps(c, START, sts) ensures Load(r, Steps(c, START, sts).executing) <= Total(c, r) {
        ShareFits(c, r, sts);
      }
    } else {
      TwiceTheWhole(c, r);
      hide FitsAlways;
    }
  }

  lemma SmallProduct(n: nat, k: nat)
    ensures n <= 1 || k == 0 ==> n * k <= k
  {
  }
}
