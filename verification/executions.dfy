/** Which dispatched tasks really execute (internal/executor/executor.go, Run): a local run
    takes one of maxConcurrent slots before it starts its process and gives it back when it
    ends.  Until then its goroutine waits. */
module Executions {
  import opened Sums
  import opened Tasks
  import opened TaskQueue
  import opened Lifecycle
  import opened DispatchBound
  import opened Ledger

  /** Of the local runs, `executing` hold a slot; `ended` have given theirs back and are about
      to report; the others wait for one. */
  datatype Machine = Machine(s: State, executing: multiset<Task>, ended: multiset<Task>)

  const START := Machine(INITIAL, multiset{}, multiset{})

  datatype Step = STakeSlot(task: Task) | SFreeSlot(task: Task) | SEvent(event: Event)

  ghost predicate CanStep(c: Config, m: Machine, st: Step) {
    match st
    case STakeSlot(t) => t in m.s.locals - (m.executing + m.ended) && |m.executing| < c.maxConcurrent
    case SFreeSlot(t) => t in m.executing
    case SEvent(e) => Enabled(m.s, e) && (e.ELocalDone? ==> e.task in m.ended)
  }

  ghost function After(c: Config, m: Machine, st: Step): Machine
    requires CanStep(c, m, st)
  {
    match st
    case STakeSlot(t) => m.(executing := m.executing + multiset{t})
    case SFreeSlot(t) => m.(executing := m.executing - multiset{t}, ended := m.ended + multiset{t})
    case SEvent(e) =>
      m.(s := Apply(c, m.s, e), ended := if e.ELocalDone? then m.ended - multiset{e.task} else m.ended)
  }

  ghost predicate CanSteps(c: Config, m: Machine, sts: seq<Step>)
    decreases |sts|
  {
    sts == [] || (CanStep(c, m, sts[0]) && CanSteps(c, After(c, m, sts[0]), sts[1..]))
  }

  ghost function Steps(c: Config, m: Machine, sts: seq<Step>): Machine
    requires CanSteps(c, m, sts)
    decreases |sts|
  {
    if sts == [] then m else Steps(c, After(c, m, sts[0]), sts[1..])
  }

  // ----- Slots -----

  ghost predicate WithinSlots(c: Config, m: Machine) {
    m.executing + m.ended <= m.s.locals && |m.executing| <= c.maxConcurrent
  }

  lemma DispatchKeepsLocals(s: State, t: Task, node: Option<NodeId>, now: int)
    ensures s.locals <= Dispatch(s, t, node, now).locals
  {
  }

  lemma CompleteTaskKeepsLocals(s: State, t: Task, r: TaskResult, now: int)
    ensures CompleteTask(s, t, r, now).locals == s.locals
  {
  }

  lemma {:induction false} SweepKeepsLocals(s: State, ts: seq<Task>, now: int)
    ensures FailTimedOut(s, ts, now).locals == s.locals
    decreases |ts|
  {
    if ts != [] {
      SweepKeepsLocals(if TimedOut(ts[0], now) then FailTask(s, ts[0], TIMED_OUT, now) else s, ts[1..], now);
    }
  }

  lemma EventKeepsLocals(c: Config, s: State, e: Event)
    requires Enabled(s, e)
    ensures if e.ELocalDone? then Apply(c, s, e).locals == s.locals - multiset{e.task}
            else s.locals <= Apply(c, s, e).locals
  {
    hide FailTimedOut, CompleteTask, Dispatch, CanPop, IsSnapshot;
    match e {
      case ETickBegin(snapshot, now) => SweepKeepsLocals(s, snapshot, now);
      case ETickPop(t, node, now) => DispatchKeepsLocals(s.(queue := AfterPop(s.queue, t)), t, node, now);
      case ELocalDone(t, r, now) => CompleteTaskKeepsLocals(s.(locals := s.locals - multiset{t}), t, r, now);
      case ERemoteReport(uid, r, now) =>
        if uid in s.rows { CompleteTaskKeepsLocals(s.(pulled := s.pulled - multiset{uid}), s.rows[uid], r, now); }
      case _ =>
    }
  }

  lemma StepKeepsSlots(c: Config, m: Machine, st: Step)
    requires WithinSlots(c, m) && CanStep(c, m, st)
    ensures WithinSlots(c, After(c, m, st))
  {
    match st {
      case STakeSlot(t) => TakeFits(m.executing, m.ended, m.s.locals, t);
      case SFreeSlot(t) => FreeFits(m.executing, m.ended, t);
      case SEvent(e) =>
        EventKeepsLocals(c, m.s, e);
        if e.ELocalDone? { DoneFits(m.executing, m.ended, m.s.locals, e.task); }
        hide Apply, Enabled;
    }
  }

  lemma TakeFits(a: multiset<Task>, b: multiset<Task>, whole: multiset<Task>, t: Task)
    requires a + b <= whole && t in whole - (a + b)
    ensures a + multiset{t} + b <= whole && |a + multiset{t}| == |a| + 1
  {
  }

  lemma FreeFits(a: multiset<Task>, b: multiset<Task>, t: Task)
    requires t in a
    ensures a - multiset{t} + (b + multiset{t}) == a + b && |a - multiset{t}| < |a|
  {
  }

  lemma DoneFits(a: multiset<Task>, b: multiset<Task>, whole: multiset<Task>, t: Task)
    requires a + b <= whole && t in b
    ensures a + (b - multiset{t}) <= whole - multiset{t}
  {
  }

  /** Main result: in every run at most maxConcurrent tasks execute, each of them a local
      run, however many local runs are outstanding. */
  lemma {:induction false} SlotsAreKept(c: Config, m: Machine, sts: seq<Step>)
    requires WithinSlots(c, m) && CanSteps(c, m, sts)
    ensures WithinSlots(c, Steps(c, m, sts))
    decreases |sts|
  {
    hide WithinSlots, CanStep, After;
    if sts != [] {
      StepKeepsSlots(c, m, sts[0]);
      SlotsAreKept(c, After(c, m, sts[0]), sts[1..]);
    }
  }

  // ----- When what executes fits into CPU and memory -----

  /** The row of the task has a local run, waiting or executing. */
  ghost predicate HasLocal(s: State, u: Uid) {
    Lifecycle.Holds(s.locals, u)
  }

  /** No row with a local run is swept, cancelled or reported, and failures are reported only
      for rows that are Running. */
  ghost predicate Guarded(s: State, e: Event) {
    match e
    case ETickBegin(snapshot, now) => forall t :: t in snapshot && TimedOut(t, now) ==> !HasLocal(s, t.uid)
    case ECancel(u) => !HasLocal(s, u)
    case ERemoteReport(u, r, _) =>
      !HasLocal(s, u) && (r.error.Some? && u in s.rows ==> s.rows[u].status == Running)
    case _ => true
  }

  ghost function ByUid(u: Uid): Task -> nat {
    (t: Task) => if t.uid == u then 1 else 0
  }

  /** How many copies of `u` are in the bag. */
  ghost function CountOf(u: Uid, m: multiset<Task>): nat {
    Sum(ByUid(u), m)
  }

  lemma CountAdd(u: Uid, m: multiset<Task>, t: Task)
    ensures CountOf(u, m + multiset{t}) == CountOf(u, m) + if t.uid == u then 1 else 0
  {
    SumAdd(ByUid(u), m, t);
  }

  lemma CountRemove(u: Uid, m: multiset<Task>, t: Task)
    requires t in m
    ensures CountOf(u, m) == CountOf(u, m - multiset{t}) + if t.uid == u then 1 else 0
  {
    SumRemove(ByUid(u), m, t);
  }

  lemma CountZero(u: Uid, m: multiset<Task>)
    ensures CountOf(u, m) == 0 <==> !Lifecycle.Holds(m, u)
  {
    if t :| t in m && t.uid == u {
      CountRemove(u, m, t);
    } else {
      SumZero(ByUid(u), m);
    }
  }

  /** A task has at most one copy in the queue or in a local run, none in the queue while its
      row is Running, and a local copy is the row itself. */
  ghost predicate OneCopy(rows: map<Uid, Task>, queued: multiset<Task>, locals: multiset<Task>, u: Uid) {
    && CountOf(u, queued) + CountOf(u, locals) <= 1
    && (u in rows && rows[u].status == Running ==> CountOf(u, queued) == 0)
    && (forall t :: t in locals && t.uid == u ==> u in rows && rows[u] == t)
  }

  ghost predicate Single(s: State, u: Uid) {
    OneCopy(s.rows, Copies(s.queue), s.locals, u)
  }

  /** No copy of `t` is queued or local. */
  ghost predicate Gone(s: State, t: Task, u: Uid) {
    t.uid == u ==> CountOf(u, Copies(s.queue)) == 0 && CountOf(u, s.locals) == 0
  }

  lemma SaveSingle(s: State, t: Task, u: Uid)
    requires Single(s, u) && t.status != Running && (t.uid == u ==> CountOf(u, s.locals) == 0)
    ensures Single(Save(s, t), u)
  {
    CountZero(u, s.locals);
    hide CountOf, Copies;
  }

  lemma DelaySingle(s: State, t: Task, u: Uid)
    requires Single(s, u) && (Gone(s, t, u) && (t.uid == u && u in s.rows ==> s.rows[u].status != Running))
    ensures Single(s.(queue := PushDelayed(s.queue, t)), u)
  {
    PushCopies(s.queue, t);
    CountAdd(u, Copies(s.queue), t);
    CountZero(u, s.locals);
    hide CountOf, Copies, PushDelayed;
  }

  lemma FailTaskSingle(s: State, t: Task, msg: string, now: int, u: Uid)
    requires Single(s, u) && Gone(s, t, u)
    ensures Single(FailTask(s, t, msg, now), u)
  {
    if t.CanRetry() {
      var again := Retried(t, msg);
      SaveSingle(s, again, u);
      DelaySingle(Save(s, again), again, u);
      assert FailTask(s, t, msg, now) == Save(s, again).(queue := PushDelayed(s.queue, again));
      hide Single, CountOf, Copies;
    } else {
      var failed := t.(errorMessage := msg, finishedAt := Some(now)).TransitionTo(Failed);
      if failed.Ok? {
        SaveSingle(s, failed.value, u);
      }
      hide Single, CountOf, Copies;
    }
  }

  lemma CompleteTaskSingle(s: State, t: Task, r: TaskResult, now: int, u: Uid)
    requires Single(s, u) && (t.uid == u ==> CountOf(u, s.locals) == 0) && (r.error.Some? ==> Gone(s, t, u))
    ensures Single(CompleteTask(s, t, r, now), u)
  {
    var reported := t.(stdout := r.stdout, stderr := r.stderr, finishedAt := Some(now));
    hide FailTask, Single, CountOf, Copies;
    if r.error.Some? {
      FailTaskSingle(s, reported, if r.timedOut then TIMED_OUT else r.error.value, now, u);
    } else {
      var done := reported.(exitCode := Some(r.exitCode)).TransitionTo(Success);
      if done.Ok? {
        SaveSingle(s, done.value, u);
      }
    }
  }

  lemma LocalDoneSingle(s: State, t: Task, r: TaskResult, now: int, u: Uid)
    requires Single(s, u) && t in s.locals
    ensures Single(LocalDone(s, t, r, now), u)
  {
    var left := s.(locals := s.locals - multiset{t});
    CountRemove(u, s.locals, t);
    assert Single(left, u) by { hide CountOf, Copies; }
    CompleteTaskSingle(left, t, r, now, u);
    hide CompleteTask, CountOf, Copies;
  }

  lemma RemoteReportSingle(s: State, uid: Uid, r: TaskResult, now: int, u: Uid)
    requires KeyedByUid(s.rows) && Single(s, u) && Guarded(s, ERemoteReport(uid, r, now))
    ensures Single(RemoteReport(s, uid, r, now), u)
  {
    hide CompleteTask, CountOf, Copies;
    if uid in s.rows {
      CountZero(u, s.locals);
      CompleteTaskSingle(s.(pulled := s.pulled - multiset{uid}), s.rows[uid], r, now, u);
    }
  }

  lemma CancelSingle(s: State, uid: Uid, u: Uid)
    requires KeyedByUid(s.rows) && Single(s, u) && Guarded(s, ECancel(uid))
    ensures Single(Cancel(s, uid), u)
  {
    if uid in s.rows && s.rows[uid].TransitionTo(Canceled).Ok? {
      CountZero(u, s.locals);
      SaveSingle(s, s.rows[uid].TransitionTo(Canceled).value, u);
    }
    hide Single, CountOf;
  }

  lemma FailRowSingle(s: State, t: Task, now: int, u: Uid)
    requires Single(s, u) && t.uid in s.rows && s.rows[t.uid] == t && t.status == Running && !HasLocal(s, t.uid)
    ensures Single(FailTask(s, t, TIMED_OUT, now), u) && FailTask(s, t, TIMED_OUT, now).locals == s.locals
  {
    CountZero(u, s.locals);
    FailTaskSingle(s, t, TIMED_OUT, now, u);
    hide Single, CountOf;
  }

  lemma {:induction false} SweepSingle(s: State, ts: seq<Task>, now: int, u: Uid)
    requires Single(s, u) && StillRows(s.rows, ts)
    requires forall t :: t in ts ==> t.status == Running && (TimedOut(t, now) ==> !HasLocal(s, t.uid))
    ensures Single(FailTimedOut(s, ts, now), u)
    decreases |ts|
  {
    hide Single, FailTask;
    if ts != [] {
      SweepKeepsRest(s, ts, now);
      if TimedOut(ts[0], now) { FailRowSingle(s, ts[0], now, u); }
      hide StillRows;
      SweepSingle(if TimedOut(ts[0], now) then FailTask(s, ts[0], TIMED_OUT, now) else s, ts[1..], now, u);
    }
  }

  lemma TickBeginSingle(c: Config, s: State, snapshot: seq<Task>, now: int, u: Uid)
    requires Single(s, u) && IsSnapshot(s.rows, snapshot) && Guarded(s, ETickBegin(snapshot, now))
    ensures Single(TickBegin(c, s, snapshot, now), u)
  {
    assert StillRows(s.rows, snapshot) by { hide Single, Guarded; }
    SweepSingle(s, snapshot, now, u);
    hide IsSnapshot, Guarded, StillRows, FailTimedOut, OneCopy, Copies, CpuOf, MemOf;
  }

  /** A popped copy was the only one: it is put back, or it becomes the row and its run. */
  lemma PopSingle(s: State, t: Task, u: Uid)
    requires Single(s, u) && CanPop(s.queue, t)
    ensures var popped := s.(queue := AfterPop(s.queue, t));
            && Single(popped, u) && Gone(popped, t, u)
            && (t.uid == u && u in s.rows ==> s.rows[u].status != Running)
  {
    PopCopies(s.queue, t);
    CountRemove(u, Copies(s.queue), t);
    hide CountOf, Copies, AfterPop, CanPop;
  }

  lemma RunsAsRow(rows: map<Uid, Task>, queued: multiset<Task>, locals: multiset<Task>, run: Task, u: Uid)
    requires OneCopy(rows, queued, locals, u)
    requires run.uid == u ==> CountOf(u, queued) == 0 && CountOf(u, locals) == 0
    ensures OneCopy(rows[run.uid := run], queued, locals, u)
    ensures OneCopy(rows[run.uid := run], queued, locals + multiset{run}, u)
  {
    CountAdd(u, locals, run);
    CountZero(u, locals);
    hide CountOf;
  }

  lemma DispatchSingle(s: State, t: Task, node: Option<NodeId>, now: int, u: Uid)
    requires Single(s, u) && Gone(s, t, u) && Waiting(t) && t.uid in s.rows
    ensures Single(Dispatch(s, t, node, now), u)
  {
    DispatchSucceeds(s, t, node, now);
    RunsAsRow(s.rows, Copies(s.queue), s.locals, RunningCopy(t, node, now), u);
    hide Dispatch, NodeQueue, GoesRemote, OneCopy, CountOf, Copies;
  }

  lemma PlaceSingle(s: State, t: Task, node: Option<NodeId>, now: int, u: Uid)
    requires s.tick.Some? && Waiting(t) && t.uid in s.rows
    requires Single(s, u) && Gone(s, t, u) && (t.uid == u ==> s.rows[u].status != Running)
    ensures Single(TickPlace(s, t, node, now), u)
  {
    DelaySingle(s, t, u);
    DispatchSingle(s, t, node, now, u);
    hide Dispatch, PushDelayed, OneCopy, Copies, Gone;
  }

  lemma TickPopSingle(s: State, t: Task, node: Option<NodeId>, now: int, u: Uid)
    requires WellFormed(s) && Single(s, u) && Enabled(s, ETickPop(t, node, now))
    ensures Single(TickPop(s, t, node, now), u)
  {
    PopKeepsWellFormed(s, t);
    PopSingle(s, t, u);
    hide TickPlace, WellFormed, Single, Gone, AfterPop, CanPop;
    PlaceSingle(s.(queue := AfterPop(s.queue, t)), t, node, now, u);
  }

  lemma QueuedAsRow(rows: map<Uid, Task>, queued: multiset<Task>, locals: multiset<Task>, t: Task, u: Uid)
    requires OneCopy(rows, queued, locals, u) && t.status != Running
    requires t.uid == u ==> CountOf(u, queued) == 0 && CountOf(u, locals) == 0
    ensures OneCopy(rows[t.uid := t], queued + multiset{t}, locals, u)
  {
    CountAdd(u, queued, t);
    CountZero(u, locals);
    hide CountOf;
  }

  lemma UnknownIsGone(s: State, t: Task)
    requires WellFormed(s) && t.uid !in s.rows
    ensures Gone(s, t, t.uid)
  {
    CountZero(t.uid, Copies(s.queue));
    CountZero(t.uid, s.locals);
    hide CountOf, Copies;
  }

  lemma CreateSingle(s: State, t: Task, u: Uid)
    requires WellFormed(s) && Single(s, u) && IsSubmission(s.rows, t)
    ensures Single(Create(s, t), u)
  {
    UnknownIsGone(s, t);
    PushCopies(s.queue, t);
    hide WellFormed, OneCopy, CountOf, Copies;
    assert Copies(Create(s, t).queue) == Copies(s.queue) + multiset{t} by { hide Push, PushPriority; }
    QueuedAsRow(s.rows, Copies(s.queue), s.locals, t, u);
    hide Push, PushPriority;
  }

  lemma ReleaseSingle(s: State, moved: seq<Task>, u: Uid)
    requires Single(s, u) && multiset(moved) <= s.queue.delayed
    ensures Single(s.(queue := Release(s.queue, moved)), u)
  {
    ReleaseCopies(s.queue, moved);
    hide Release, OneCopy, Copies;
  }

  lemma StepKeepsSingle(c: Config, s: State, e: Event, u: Uid)
    requires WellFormed(s) && Single(s, u) && Enabled(s, e) && Guarded(s, e)
    ensures Single(Apply(c, s, e), u)
  {
    assert KeyedByUid(s.rows) by { hide AllGood, AllWaiting, AllRunning, Single; }
    hide IsSnapshot, TickBegin, TickPop, LocalDone, RemoteReport, Cancel, Create, OneCopy, Copies, CanPop, WellFormed;
    match e {
      case ECreate(t) => CreateSingle(s, t, u);
      case ETickBegin(snapshot, now) => TickBeginSingle(c, s, snapshot, now, u);
      case ETickPop(t, node, now) => TickPopSingle(s, t, node, now, u);
      case ELocalDone(t, r, now) => LocalDoneSingle(s, t, r, now, u);
      case ERemoteReport(uid, r, now) => RemoteReportSingle(s, uid, r, now, u);
      case ECancel(uid) => CancelSingle(s, uid, u);
      case ERelease(moved) => ReleaseSingle(s, moved, u);
      case EPull(_) =>
      case ETickEnd =>
    }
  }

  ghost predicate AllSingle(s: State) {
    forall u :: Single(s, u)
  }

  lemma StepKeepsAllSingle(c: Config, s: State, e: Event)
    requires WellFormed(s) && AllSingle(s) && Enabled(s, e) && Guarded(s, e)
    ensures AllSingle(Apply(c, s, e))
  {
    hide Single, Apply, Enabled, Guarded, WellFormed;
    forall u ensures Single(Apply(c, s, e), u) { StepKeepsSingle(c, s, e, u); }
  }

  // ----- Single copies add up to no more than their rows -----

  lemma {:induction false} PartSum<T>(f: T -> nat, part: multiset<T>, whole: multiset<T>)
    requires part <= whole
    ensures Sum(f, part) <= Sum(f, whole)
    decreases |part|
  {
    if part == multiset{} {
      SumZero(f, part);
    } else {
      var x :| x in part;
      SumRemove(f, part, x);
      SumRemove(f, whole, x);
      PartSum(f, part - multiset{x}, whole - multiset{x});
    }
  }

  /** Rows written out once each. */
  ghost predicate OnceEach(m: multiset<Task>, rows: map<Uid, Task>) {
    forall t :: t in m ==> t.uid in rows && rows[t.uid] == t && CountOf(t.uid, m) == 1
  }

  lemma OnceEachRest(m: multiset<Task>, rows: map<Uid, Task>, t: Task)
    requires OnceEach(m, rows) && t in m
    ensures OnceEach(m - multiset{t}, rows - {t.uid})
  {
    var rest := m - multiset{t};
    CountRemove(t.uid, m, t);
    CountZero(t.uid, rest);
    forall x | x in rest ensures x.uid in rows - {t.uid} && CountOf(x.uid, rest) == 1 {
      CountRemove(x.uid, m, t);
      hide CountOf;
    }
    hide CountOf;
  }

  lemma {:induction false} OnceEachSum(f: Task -> nat, m: multiset<Task>, rows: map<Uid, Task>)
    requires OnceEach(m, rows)
    ensures Sum(f, m) <= SumMap(f, rows)
    decreases |m|
  {
    if m == multiset{} {
      SumZero(f, m);
    } else {
      var t :| t in m;
      SumRemove(f, m, t);
      SumMapRemove(f, rows, t.uid);
      OnceEachRest(m, rows, t);
      hide OnceEach;
      OnceEachSum(f, m - multiset{t}, rows - {t.uid});
    }
  }

  lemma LocalsAreRows(s: State)
    requires AllSingle(s)
    ensures OnceEach(s.locals, s.rows)
  {
    forall t | t in s.locals ensures t.uid in s.rows && s.rows[t.uid] == t && CountOf(t.uid, s.locals) == 1 {
      assert Single(s, t.uid);
      CountRemove(t.uid, s.locals, t);
      hide CountOf;
    }
  }

  /** What the running tasks of the bag ask for. */
  ghost function Load(r: Resource, m: multiset<Task>): nat {
    Sum(ByUse(r), m)
  }

  ghost predicate GuardedSteps(c: Config, m: Machine, sts: seq<Step>)
    requires CanSteps(c, m, sts)
    decreases |sts|
  {
    sts == [] || ((sts[0].SEvent? ==> Guarded(m.s, sts[0].event)) && GuardedSteps(c, After(c, m, sts[0]), sts[1..]))
  }

  ghost predicate Sound(c: Config, m: Machine, r: Resource) {
    WithinSlots(c, m) && WellFormed(m.s) && AllSingle(m.s) && Covered(c, m.s, r)
  }

  lemma StepKeepsSound(c: Config, m: Machine, st: Step, r: Resource)
    requires Sound(c, m, r) && CanStep(c, m, st) && (st.SEvent? ==> Guarded(m.s, st.event))
    ensures Sound(c, After(c, m, st), r)
  {
    StepKeepsSlots(c, m, st);
    hide WithinSlots, WellFormed, AllSingle, Covered, Guarded;
    if st.SEvent? {
      StepKeepsWellFormed(c, m.s, st.event);
      StepKeepsAllSingle(c, m.s, st.event);
      StepKeepsCovered(c, m.s, st.event, r);
      hide Apply, Enabled;
    }
  }

  lemma {:induction false} StepsKeepSound(c: Config, m: Machine, sts: seq<Step>, r: Resource)
    requires Sound(c, m, r) && CanSteps(c, m, sts) && GuardedSteps(c, m, sts)
    ensures Sound(c, Steps(c, m, sts), r)
    decreases |sts|
  {
    hide Sound, CanStep, After, Guarded;
    if sts != [] {
      StepKeepsSound(c, m, sts[0], r);
      StepsKeepSound(c, After(c, m, sts[0]), sts[1..], r);
    }
  }

  lemma InitiallySound(c: Config, r: Resource)
    ensures Sound(c, START, r)
  {
    InitiallyWithinBound("");
    NothingUsed(INITIAL.rows, r);
    forall u ensures Single(INITIAL, u) {
      CountZero(u, multiset{});
      assert Copies(INITIAL.queue) == multiset{};
    }
  }

  lemma CoveredFits(c: Config, s: State, r: Resource)
    requires Covered(c, s, r)
    ensures Used(r, s.rows) <= Total(c, r)
  {
  }

  /** Main result: in every guarded run the tasks that execute, and even all local runs
      together, fit into the scheduler's CPU, memory and concurrency limits. */
  lemma GuardedExecutionsFit(c: Config, sts: seq<Step>, r: Resource)
    requires CanSteps(c, START, sts) && GuardedSteps(c, START, sts)
    ensures var m := Steps(c, START, sts); Load(r, m.executing) <= Load(r, m.s.locals) <= Total(c, r)
  {
    InitiallySound(c, r);
    StepsKeepSound(c, START, sts, r);
    var m := Steps(c, START, sts);
    hide Steps, CanSteps, GuardedSteps;
    LocalsAreRows(m.s);
    hide AllSingle, WellFormed, Total, ByUse;
    OnceEachSum(ByUse(r), m.s.locals, m.s.rows);
    PartSum(ByUse(r), m.executing, m.s.locals);
    CoveredFits(c, m.s, r);
  }
}
