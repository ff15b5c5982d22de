/** The life of tasks as a state machine (internal/scheduler/scheduler.go and
    internal/service/task_service.go): each handler is one atomic step, and the
    iterations of a tick's dispatch loop are separate steps, so that every other
    handler can run between them.  One scheduler, no etcd. */
module Lifecycle {
  import opened Sums
  import opened Tasks
  import opened TaskQueue

  /** The fixed limits of a scheduler. */
  datatype Config = Config(totalCpu: nat, totalMem: nat, maxConcurrent: nat)

  /** What a tick believes is still free. */
  datatype Budget = Budget(cpu: int, mem: int, slots: int)

  const NODE_QUEUE_CAPACITY: nat := 10

  /** `rows` is the tasks table, `locals` holds the copies owned by executor
      goroutines, `pulled` the uids handed to agents that have not reported yet.
      `started` counts every write of the Running status, uid by uid. */
  datatype State = State(
    rows: map<Uid, Task>,
    queue: Queue,
    locals: multiset<Task>,
    nodeQueues: map<NodeId, seq<Task>>,
    pulled: multiset<Uid>,
    tick: Option<Budget>,
    started: multiset<Uid>
  )

  const INITIAL := State(map[], TaskQueue.EMPTY, multiset{}, map[], multiset{}, None, multiset{})

  /** The UPDATE statement writes the whole row of an existing uid. */
  function Update(rows: map<Uid, Task>, t: Task): map<Uid, Task> {
    if t.uid in rows then rows[t.uid := t] else rows
  }

  function Save(s: State, t: Task): State {
    s.(rows := Update(s.rows, t))
  }

  predicate CanAllocate(t: Task, cpu: int, mem: int) {
    !(t.cpuLimit > 0 && t.cpuLimit > cpu) && !(t.memoryLimit > 0 && t.memoryLimit > mem)
  }

  predicate TimedOut(t: Task, now: int) {
    t.startedAt.Some? && t.timeoutSec > 0 && now > t.startedAt.value + t.timeoutSec * SECOND
  }

  /** The copy that goes back to the queue when `t` fails with retries left. */
  function Retried(t: Task, msg: string): Task {
    t.(errorMessage := msg, retryCount := t.retryCount + 1, status := Pending, finishedAt := None)
  }

  /** failTask: retry while the copy has retries left, otherwise fail it. */
  function FailTask(s: State, t: Task, msg: string, now: int): State {
    if t.CanRetry() then
      var again := Retried(t, msg);
      Save(s, again).(queue := PushDelayed(s.queue, again))
    else
      match t.(errorMessage := msg, finishedAt := Some(now)).TransitionTo(Failed)
      case Err => s
      case Ok(failed) => Save(s, failed)
  }

  /** completeTask: a result with an error fails the task, any other finishes it. */
  function CompleteTask(s: State, t: Task, r: TaskResult, now: int): State {
    var reported := t.(stdout := r.stdout, stderr := r.stderr, finishedAt := Some(now));
    if r.error.Some? then
      FailTask(s, reported, if r.timedOut then TIMED_OUT else r.error.value, now)
    else
      match reported.(exitCode := Some(r.exitCode)).TransitionTo(Success)
      case Err => s
      case Ok(done) => Save(s, done)
  }

  function MarkStarted(s: State, t: Task): State {
    Save(s, t).(started := s.started + multiset{t.uid})
  }

  function DispatchLocal(s: State, t: Task, now: int): State {
    match t.TransitionTo(Running)
    case Err => s
    case Ok(r) =>
      var run := r.(startedAt := Some(now));
      MarkStarted(s, run).(locals := s.locals + multiset{run})
  }

  function NodeQueue(s: State, node: NodeId): seq<Task> {
    if node in s.nodeQueues then s.nodeQueues[node] else []
  }

  /** Hands the task to the node's bounded queue, or runs it locally when full. */
  function DispatchRemote(s: State, t: Task, node: NodeId, now: int): State {
    match t.TransitionTo(Running)
    case Err => s
    case Ok(r) =>
      var run := r.(assignedNodeId := node, startedAt := Some(now));
      var waiting := NodeQueue(s, node);
      if |waiting| < NODE_QUEUE_CAPACITY then
        MarkStarted(s, run).(nodeQueues := s.nodeQueues[node := waiting + [run]])
      else
        MarkStarted(s, run).(nodeQueues := s.nodeQueues[node := waiting], locals := s.locals + multiset{run})
  }

  function Launch(s: State, t: Task, node: Option<NodeId>, now: int): State {
    match node
    case None => DispatchLocal(s, t, now)
    case Some(n) => DispatchRemote(s, t, n, now)
  }

  function Dispatch(s: State, t: Task, node: Option<NodeId>, now: int): State {
    if t.status == Created then
      match t.TransitionTo(Pending)
      case Err => s
      case Ok(p) => Launch(Save(s, p), p, node, now)
    else
      Launch(s, t, node, now)
  }

  /** `snapshot` lists the Running rows, each once, in some order. */
  ghost predicate IsSnapshot(rows: map<Uid, Task>, snapshot: seq<Task>) {
    && (forall t :: t in snapshot ==> t.uid in rows && rows[t.uid] == t && t.status == Running)
    && (forall i, j :: 0 <= i < j < |snapshot| ==> snapshot[i].uid != snapshot[j].uid)
    && (forall u :: u in rows && rows[u].status == Running ==> rows[u] in snapshot)
  }

  function CpuOf(ts: seq<Task>): int {
    if ts == [] then 0 else ts[0].cpuLimit + CpuOf(ts[1..])
  }

  function MemOf(ts: seq<Task>): int {
    if ts == [] then 0 else ts[0].memoryLimit + MemOf(ts[1..])
  }

  function FailTimedOut(s: State, snapshot: seq<Task>, now: int): State
    decreases |snapshot|
  {
    if snapshot == [] then s
    else
      var next := if TimedOut(snapshot[0], now) then FailTask(s, snapshot[0], TIMED_OUT, now) else s;
      FailTimedOut(next, snapshot[1..], now)
  }

  /** The first half of a tick: account for the running tasks, fail the ones past
      their deadline, and open the dispatch loop if a slot is free. */
  function TickBegin(c: Config, s: State, snapshot: seq<Task>, now: int): State {
    var swept := FailTimedOut(s, snapshot, now);
    var slots := c.maxConcurrent - |snapshot|;
    if slots <= 0 then swept
    else swept.(tick := Some(Budget(c.totalCpu - CpuOf(snapshot), c.totalMem - MemOf(snapshot), slots)))
  }

  /** Dispatches the popped task `t` if it fits, else puts it off. */
  function TickPlace(s: State, t: Task, node: Option<NodeId>, now: int): State
    requires s.tick.Some?
  {
    var b := s.tick.value;
    if CanAllocate(t, b.cpu, b.mem) then
      Dispatch(s, t, node, now).(tick := Some(Budget(b.cpu - t.cpuLimit, b.mem - t.memoryLimit, b.slots - 1)))
    else
      s.(queue := PushDelayed(s.queue, t))
  }

  /** One iteration of the dispatch loop, for the popped task `t`. */
  function TickPop(s: State, t: Task, node: Option<NodeId>, now: int): State
    requires s.tick.Some?
  {
    TickPlace(s.(queue := AfterPop(s.queue, t)), t, node, now)
  }

  /** A local executor ends: the copy it held is completed. */
  function LocalDone(s: State, t: Task, r: TaskResult, now: int): State {
    CompleteTask(s.(locals := s.locals - multiset{t}), t, r, now)
  }

  function RemoteReport(s: State, uid: Uid, r: TaskResult, now: int): State {
    if uid !in s.rows then s
    else CompleteTask(s.(pulled := s.pulled - multiset{uid}), s.rows[uid], r, now)
  }

  function Pull(s: State, node: NodeId): State {
    if NodeQueue(s, node) == [] then s
    else s.(nodeQueues := s.nodeQueues[node := s.nodeQueues[node][1..]],
            pulled := s.pulled + multiset{s.nodeQueues[node][0].uid})
  }

  function Cancel(s: State, uid: Uid): State {
    if uid !in s.rows || s.rows[uid].status.IsTerminal() then s
    else
      match s.rows[uid].TransitionTo(Canceled)
      case Err => s
      case Ok(t) => Save(s, t)
  }

  function Create(s: State, t: Task): State {
    s.(rows := s.rows[t.uid := t],
       queue := if t.priority > 0 then PushPriority(s.queue, t) else Push(s.queue, t))
  }

  datatype Event =
    | ECreate(task: Task)
    | ETickBegin(snapshot: seq<Task>, now: int)
    | ETickPop(task: Task, node: Option<NodeId>, now: int)
    | ETickEnd
    | ELocalDone(task: Task, result: TaskResult, now: int)
    | ERemoteReport(uid: Uid, result: TaskResult, now: int)
    | EPull(nodeId: NodeId)
    | ECancel(uid: Uid)
    | ERelease(moved: seq<Task>)

  /** A submitted task as CreateTask builds it: fresh uid, never run, limits not negative. */
  ghost predicate IsSubmission(rows: map<Uid, Task>, t: Task) {
    && t.uid !in rows && t.status == Created && t.retryCount == 0
    && t.maxRetries >= 0 && t.cpuLimit >= 0 && t.memoryLimit >= 0
  }

  ghost predicate Enabled(s: State, e: Event) {
    match e
    case ECreate(t) => IsSubmission(s.rows, t)
    case ETickBegin(snapshot, _) => s.tick.None? && IsSnapshot(s.rows, snapshot)
    case ETickPop(t, _, _) => s.tick.Some? && s.tick.value.slots > 0 && CanPop(s.queue, t)
    case ETickEnd => s.tick.Some?
    case ELocalDone(t, _, _) => t in s.locals
    case ERelease(moved) => multiset(moved) <= s.queue.delayed
    case _ => true
  }

  ghost function Apply(c: Config, s: State, e: Event): State
    requires Enabled(s, e)
  {
    match e
    case ECreate(t) => Create(s, t)
    case ETickBegin(snapshot, now) => TickBegin(c, s, snapshot, now)
    case ETickPop(t, node, now) => TickPop(s, t, node, now)
    case ETickEnd => s.(tick := None)
    case ELocalDone(t, r, now) => LocalDone(s, t, r, now)
    case ERemoteReport(uid, r, now) => RemoteReport(s, uid, r, now)
    case EPull(node) => Pull(s, node)
    case ECancel(uid) => Cancel(s, uid)
    case ERelease(moved) => s.(queue := Release(s.queue, moved))
  }

  ghost predicate ValidRun(c: Config, s: State, es: seq<Event>)
    decreases |es|
  {
    es == [] || (Enabled(s, es[0]) && ValidRun(c, Apply(c, s, es[0]), es[1..]))
  }

  /** The state after a run. */
  ghost function Run(c: Config, s: State, es: seq<Event>): State
    requires ValidRun(c, s, es)
    decreases |es|
  {
    if es == [] then s else Run(c, Apply(c, s, es[0]), es[1..])
  }

  lemma RunHead(c: Config, s: State, e: Event, es: seq<Event>)
    requires Enabled(s, e)
    ensures ValidRun(c, s, [e] + es) <==> ValidRun(c, Apply(c, s, e), es)
    ensures ValidRun(c, s, [e] + es) ==> Run(c, s, [e] + es) == Run(c, Apply(c, s, e), es)
  {
  }

  lemma {:induction false} RunConcat(c: Config, s: State, es: seq<Event>, fs: seq<Event>)
    requires ValidRun(c, s, es) && ValidRun(c, Run(c, s, es), fs)
    ensures ValidRun(c, s, es + fs) && Run(c, s, es + fs) == Run(c, Run(c, s, es), fs)
    decreases |es|
  {
    hide Apply, Enabled;
    if es == [] {
      assert es + fs == fs;
    } else {
      assert es + fs == [es[0]] + (es[1..] + fs);
      RunConcat(c, Apply(c, s, es[0]), es[1..], fs);
      RunHead(c, s, es[0], es[1..] + fs);
    }
  }

  // ----- What every run keeps about the copies of a task -----

  ghost predicate GoodCopy(rows: map<Uid, Task>, t: Task) {
    && t.uid in rows && SameSubmission(t, rows[t.uid])
    && 0 <= t.retryCount <= t.maxRetries
    && 0 <= t.cpuLimit && 0 <= t.memoryLimit
  }

  /** Some copy in the bag is a copy of task `u`. */
  ghost predicate Holds(m: multiset<Task>, u: Uid) {
    exists t :: t in m && t.uid == u
  }

  predicate Waiting(t: Task) {
    t.status == Created || t.status == Pending
  }

  ghost predicate GoodRows(rows: map<Uid, Task>) {
    forall u :: u in rows ==> rows[u].uid == u && GoodCopy(rows, rows[u])
  }

  ghost predicate AllGood(rows: map<Uid, Task>, m: multiset<Task>) {
    forall t :: t in m ==> GoodCopy(rows, t)
  }

  ghost predicate AllWaiting(m: multiset<Task>) {
    forall t :: t in m ==> Waiting(t)
  }

  ghost predicate AllRunning(m: multiset<Task>) {
    forall t :: t in m ==> t.status == Running
  }

  /** Retry counters stay within their limit on every copy; whatever is queued can
      be dispatched, and whatever an executor holds can be finished. */
  ghost predicate WellFormed(s: State) {
    && GoodRows(s.rows)
    && AllGood(s.rows, Copies(s.queue)) && AllWaiting(Copies(s.queue))
    && AllGood(s.rows, s.locals) && AllRunning(s.locals)
  }

  /** Two tables with the same submissions have the same good copies. */
  ghost predicate SameSubmissions(rows: map<Uid, Task>, rows': map<Uid, Task>) {
    rows.Keys == rows'.Keys && forall u :: u in rows ==> SameSubmission(rows[u], rows'[u])
  }

  lemma SameSubmissionsKeepGood(rows: map<Uid, Task>, rows': map<Uid, Task>, m: multiset<Task>)
    requires SameSubmissions(rows, rows') && AllGood(rows, m)
    ensures AllGood(rows', m)
  {
  }

  lemma SaveKeepsWellFormed(s: State, t: Task)
    requires WellFormed(s) && GoodCopy(s.rows, t)
    ensures WellFormed(Save(s, t)) && SameSubmissions(s.rows, Save(s, t).rows)
  {
    UpdateKeepsGood(s.rows, t);
    hide GoodCopy, Update;
    SameSubmissionsKeepGood(s.rows, Save(s, t).rows, Copies(s.queue));
    SameSubmissionsKeepGood(s.rows, Save(s, t).rows, s.locals);
    hide GoodRows, AllGood, AllWaiting, AllRunning;
  }

  lemma UpdateKeepsGood(rows: map<Uid, Task>, t: Task)
    requires GoodRows(rows) && GoodCopy(rows, t)
    ensures GoodRows(Update(rows, t)) && SameSubmissions(rows, Update(rows, t))
  {
  }

  lemma DelayKeepsWellFormed(s: State, t: Task)
    requires WellFormed(s) && GoodCopy(s.rows, t) && Waiting(t)
    ensures WellFormed(s.(queue := PushDelayed(s.queue, t)))
  {
  }

  lemma FailTaskKeepsWellFormed(s: State, t: Task, msg: string, now: int)
    requires WellFormed(s) && GoodCopy(s.rows, t)
    ensures WellFormed(FailTask(s, t, msg, now)) && SameSubmissions(s.rows, FailTask(s, t, msg, now).rows)
  {
    if t.CanRetry() {
      var again := Retried(t, msg);
      var saved := Save(s, again);
      SaveKeepsWellFormed(s, again);
      DelayKeepsWellFormed(saved, again);
      assert FailTask(s, t, msg, now) == saved.(queue := PushDelayed(saved.queue, again));
    } else {
      var failed := t.(errorMessage := msg, finishedAt := Some(now)).TransitionTo(Failed);
      if failed.Ok? {
        SaveKeepsWellFormed(s, failed.value);
      }
    }
  }

  lemma CompleteTaskKeepsWellFormed(s: State, t: Task, r: TaskResult, now: int)
    requires WellFormed(s) && GoodCopy(s.rows, t)
    ensures WellFormed(CompleteTask(s, t, r, now))
  {
    var reported := t.(stdout := r.stdout, stderr := r.stderr, finishedAt := Some(now));
    if r.error.Some? {
      FailTaskKeepsWellFormed(s, reported, if r.timedOut then TIMED_OUT else r.error.value, now);
    } else {
      var done := reported.(exitCode := Some(r.exitCode)).TransitionTo(Success);
      if done.Ok? {
        SaveKeepsWellFormed(s, done.value);
      }
    }
  }

  lemma {:induction false} FailTimedOutKeepsWellFormed(s: State, snapshot: seq<Task>, now: int)
    requires WellFormed(s) && AllGood(s.rows, multiset(snapshot))
    ensures WellFormed(FailTimedOut(s, snapshot, now))
    decreases |snapshot|
  {
    if snapshot != [] {
      HeadIsRemoved(snapshot);
      var next := if TimedOut(snapshot[0], now) then FailTask(s, snapshot[0], TIMED_OUT, now) else s;
      FailTaskKeepsWellFormed(s, snapshot[0], TIMED_OUT, now);
      SameSubmissionsKeepGood(s.rows, next.rows, multiset(snapshot[1..]));
      FailTimedOutKeepsWellFormed(next, snapshot[1..], now);
    }
  }

  /** The copy that ends up Running when `t` is dispatched: on `node`, or locally. */
  function RunningCopy(t: Task, node: Option<NodeId>, now: int): Task {
    var run := t.(status := Running, startedAt := Some(now));
    if node.Some? then run.(assignedNodeId := node.value) else run
  }

  predicate GoesRemote(s: State, node: Option<NodeId>) {
    node.Some? && |NodeQueue(s, node.value)| < NODE_QUEUE_CAPACITY
  }

  lemma LaunchSucceeds(s: State, t: Task, node: Option<NodeId>, now: int)
    requires t.status == Pending && t.uid in s.rows
    ensures var run := RunningCopy(t, node, now);
            Launch(s, t, node, now) == s.(
              rows := s.rows[t.uid := run],
              started := s.started + multiset{t.uid},
              nodeQueues := if GoesRemote(s, node) then s.nodeQueues[node.value := NodeQueue(s, node.value) + [run]]
                            else if node.Some? then s.nodeQueues[node.value := NodeQueue(s, node.value)]
                            else s.nodeQueues,
              locals := if GoesRemote(s, node) then s.locals else s.locals + multiset{run})
  {
  }

  /** A waiting copy is always dispatched: no transition on the way is refused, the
      row becomes the running copy, and exactly one run of it is outstanding more. */
  lemma DispatchSucceeds(s: State, t: Task, node: Option<NodeId>, now: int)
    requires Waiting(t) && t.uid in s.rows
    ensures var run := RunningCopy(t, node, now);
            Dispatch(s, t, node, now) == s.(
              rows := s.rows[t.uid := run],
              started := s.started + multiset{t.uid},
              nodeQueues := if GoesRemote(s, node) then s.nodeQueues[node.value := NodeQueue(s, node.value) + [run]]
                            else if node.Some? then s.nodeQueues[node.value := NodeQueue(s, node.value)]
                            else s.nodeQueues,
              locals := if GoesRemote(s, node) then s.locals else s.locals + multiset{run})
  {
    if t.status == Created {
      var p := t.(status := Pending);
      assert t.TransitionTo(Pending) == Ok(p);
      LaunchSucceeds(Save(s, p), p, node, now);
      OverwriteTwice(s.rows, t.uid, p, RunningCopy(t, node, now));
    } else {
      LaunchSucceeds(s, t, node, now);
    }
  }

  lemma OverwriteTwice<K, V>(m: map<K, V>, k: K, v: V, w: V)
    ensures m[k := v][k := w] == m[k := w]
  {
  }

  lemma RunJoins(s: State, run: Task, s': State)
    requires WellFormed(s) && GoodCopy(s.rows, run) && run.status == Running
    requires s'.rows == s.rows[run.uid := run] && s'.queue == s.queue
    requires s'.locals == s.locals || s'.locals == s.locals + multiset{run}
    ensures WellFormed(s')
  {
    SaveKeepsWellFormed(s, run);
    assert Save(s, run).rows == s'.rows && GoodCopy(s'.rows, run);
    hide GoodCopy, GoodRows, AllWaiting;
  }

  lemma DispatchKeepsWellFormed(s: State, t: Task, node: Option<NodeId>, now: int)
    requires WellFormed(s) && GoodCopy(s.rows, t) && Waiting(t)
    ensures WellFormed(Dispatch(s, t, node, now))
  {
    var run := RunningCopy(t, node, now);
    DispatchSucceeds(s, t, node, now);
    assert GoodCopy(s.rows, run) by { hide WellFormed, Dispatch; }
    hide WellFormed, GoodCopy;
    RunJoins(s, run, Dispatch(s, t, node, now));
    hide Dispatch;
  }

  lemma PopKeepsWellFormed(s: State, t: Task)
    requires WellFormed(s) && CanPop(s.queue, t)
    ensures WellFormed(s.(queue := AfterPop(s.queue, t))) && GoodCopy(s.rows, t) && Waiting(t)
  {
    PopCopies(s.queue, t);
  }

  lemma TickPopKeepsWellFormed(s: State, t: Task, node: Option<NodeId>, now: int)
    requires WellFormed(s) && s.tick.Some? && CanPop(s.queue, t)
    ensures WellFormed(TickPop(s, t, node, now))
  {
    var popped := s.(queue := AfterPop(s.queue, t));
    PopKeepsWellFormed(s, t);
    DelayKeepsWellFormed(popped, t);
    DispatchKeepsWellFormed(popped, t, node, now);
  }

  lemma NewRowKeepsGood(rows: map<Uid, Task>, t: Task, m: multiset<Task>)
    requires GoodRows(rows) && AllGood(rows, m) && IsSubmission(rows, t)
    ensures GoodRows(rows[t.uid := t]) && AllGood(rows[t.uid := t], m) && GoodCopy(rows[t.uid := t], t)
  {
  }

  lemma AddGood(rows: map<Uid, Task>, m: multiset<Task>, t: Task)
    requires AllGood(rows, m) && AllWaiting(m) && GoodCopy(rows, t) && Waiting(t)
    ensures AllGood(rows, m + multiset{t}) && AllWaiting(m + multiset{t})
  {
  }

  lemma CreateKeepsWellFormed(s: State, t: Task)
    requires WellFormed(s) && IsSubmission(s.rows, t)
    ensures WellFormed(Create(s, t))
  {
    var rows := s.rows[t.uid := t];
    NewRowKeepsGood(s.rows, t, Copies(s.queue));
    NewRowKeepsGood(s.rows, t, s.locals);
    AddGood(rows, Copies(s.queue), t);
    PushCopies(s.queue, t);
    assert Copies(Create(s, t).queue) == Copies(s.queue) + multiset{t};
    hide GoodRows, AllGood, AllWaiting, AllRunning, Copies;
  }

  lemma LocalDoneKeepsWellFormed(s: State, t: Task, r: TaskResult, now: int)
    requires WellFormed(s) && t in s.locals
    ensures WellFormed(LocalDone(s, t, r, now))
  {
    CompleteTaskKeepsWellFormed(s.(locals := s.locals - multiset{t}), t, r, now);
  }

  lemma RemoteReportKeepsWellFormed(s: State, uid: Uid, r: TaskResult, now: int)
    requires WellFormed(s)
    ensures WellFormed(RemoteReport(s, uid, r, now))
  {
    if uid in s.rows {
      CompleteTaskKeepsWellFormed(s.(pulled := s.pulled - multiset{uid}), s.rows[uid], r, now);
    }
  }

  lemma CancelKeepsWellFormed(s: State, uid: Uid)
    requires WellFormed(s)
    ensures WellFormed(Cancel(s, uid))
  {
    if uid in s.rows && s.rows[uid].TransitionTo(Canceled).Ok? {
      SaveKeepsWellFormed(s, s.rows[uid].TransitionTo(Canceled).value);
    }
    hide AllGood, AllWaiting, AllRunning, GoodCopy;
  }

  lemma TickBeginKeepsWellFormed(c: Config, s: State, snapshot: seq<Task>, now: int)
    requires WellFormed(s) && IsSnapshot(s.rows, snapshot)
    ensures WellFormed(TickBegin(c, s, snapshot, now))
  {
    assert AllGood(s.rows, multiset(snapshot)) by { hide AllWaiting, AllRunning; }
    FailTimedOutKeepsWellFormed(s, snapshot, now);
    hide FailTimedOut, CpuOf, MemOf;
  }

  lemma ReleaseKeepsWellFormed(s: State, moved: seq<Task>)
    requires WellFormed(s) && multiset(moved) <= s.queue.delayed
    ensures WellFormed(s.(queue := Release(s.queue, moved)))
  {
    ReleaseCopies(s.queue, moved);
    hide Release;
  }

  lemma StepKeepsWellFormed(c: Config, s: State, e: Event)
    requires WellFormed(s) && Enabled(s, e)
    ensures WellFormed(Apply(c, s, e))
  {
    hide GoodRows, AllGood, AllWaiting, AllRunning, IsSnapshot, TickPop, LocalDone, RemoteReport, Cancel, Create;
    hide TickBegin;
    match e {
      case ECreate(t) => CreateKeepsWellFormed(s, t);
      case ETickBegin(snapshot, now) => TickBeginKeepsWellFormed(c, s, snapshot, now);
      case ETickPop(t, node, now) => TickPopKeepsWellFormed(s, t, node, now);
      case ELocalDone(t, r, now) => LocalDoneKeepsWellFormed(s, t, r, now);
      case ERemoteReport(uid, r, now) => RemoteReportKeepsWellFormed(s, uid, r, now);
      case ECancel(uid) => CancelKeepsWellFormed(s, uid);
      case ERelease(moved) => ReleaseKeepsWellFormed(s, moved);
      case EPull(_) =>
      case ETickEnd =>
    }
  }

  lemma {:induction false} RunKeepsWellFormed(c: Config, s: State, es: seq<Event>)
    requires WellFormed(s) && ValidRun(c, s, es)
    ensures WellFormed(Run(c, s, es))
    decreases |es|
  {
    if es != [] {
      StepKeepsWellFormed(c, s, es[0]);
      RunKeepsWellFormed(c, Apply(c, s, es[0]), es[1..]);
    }
  }
}
