/** No task is forgotten, over every run of the lifecycle machine: a waiting row
    always has a queue entry that will start it, and a running row always has a
    run that is still to report. */
module NothingStranded {
  import opened Sums
  import opened Tasks
  import opened TaskQueue
  import opened Lifecycle
  import opened DispatchBound

  ghost predicate OnNode(queues: map<NodeId, seq<Task>>, u: Uid) {
    exists n, i :: n in queues && 0 <= i < |queues[n]| && queues[n][i].uid == u
  }

  /** A run of `u` whose report has not arrived: in an executor goroutine, in the
      queue of a node, or with the agent that pulled it. */
  ghost predicate HasRun(s: State, u: Uid) {
    Holds(s.locals, u) || OnNode(s.nodeQueues, u) || u in s.pulled
  }

  /** What is known of a task outside this scheduler: that somebody else answers for its
      queued copy, or for its run. */
  datatype Elsewhere = Elsewhere(copy: bool, run: bool)

  const NOWHERE := Elsewhere(false, false)

  ghost predicate Accounted(s: State, u: Uid, x: Elsewhere) {
    u in s.rows ==>
      && (Waiting(s.rows[u]) ==> Holds(Copies(s.queue), u) || x.copy)
      && (s.rows[u].status == Running ==> HasRun(s, u) || x.run)
  }

  lemma HoldsAdd(m: multiset<Task>, t: Task, u: Uid)
    ensures Holds(m + multiset{t}, u) <==> Holds(m, u) || t.uid == u
  {
  }

  lemma HoldsRemove(m: multiset<Task>, t: Task, u: Uid)
    requires t in m && t.uid != u
    ensures Holds(m - multiset{t}, u) <==> Holds(m, u)
  {
  }

  /** Replacing the row of another task, or writing a status that is neither waiting
      nor running, needs nothing more. */
  lemma SaveAccounted(s: State, t: Task, u: Uid, x: Elsewhere)
    requires t.uid in s.rows
    requires t.uid != u ==> Accounted(s, u, x)
    requires t.uid == u ==> t.status.IsTerminal()
    ensures Accounted(Save(s, t), u, x)
  {
  }

  /** What completing or failing the copy `t` needs to know about `u`: either the
      task is another one, or the copy is running and its row is about to be
      written, or the copy is the row itself. */
  ghost predicate MayReport(s: State, t: Task, u: Uid, x: Elsewhere) {
    if t.uid != u then Accounted(s, u, x)
    else t.status == Running || (t.uid in s.rows && s.rows[t.uid].status == t.status && Accounted(s, u, x))
  }

  lemma RetryAccounted(s: State, again: Task, u: Uid, x: Elsewhere)
    requires again.uid in s.rows && again.status == Pending
    requires again.uid != u ==> Accounted(s, u, x)
    ensures Accounted(Save(s, again).(queue := PushDelayed(s.queue, again)), u, x)
  {
  }

  lemma FailTaskAccounted(s: State, t: Task, msg: string, now: int, u: Uid, x: Elsewhere)
    requires GoodCopy(s.rows, t) && MayReport(s, t, u, x)
    ensures Accounted(FailTask(s, t, msg, now), u, x)
  {
    if t.CanRetry() {
      var again := Retried(t, msg);
      assert FailTask(s, t, msg, now) == Save(s, again).(queue := PushDelayed(s.queue, again));
      RetryAccounted(s, again, u, x);
    } else {
      var failed := t.(errorMessage := msg, finishedAt := Some(now)).TransitionTo(Failed);
      assert FailTask(s, t, msg, now) == if failed.Ok? then Save(s, failed.value) else s;
      if failed.Ok? {
        SaveAccounted(s, failed.value, u, x);
      }
    }
  }

  lemma CompleteTaskAccounted(s: State, t: Task, r: TaskResult, now: int, u: Uid, x: Elsewhere)
    requires GoodCopy(s.rows, t) && MayReport(s, t, u, x)
    ensures Accounted(CompleteTask(s, t, r, now), u, x)
  {
    var reported := t.(stdout := r.stdout, stderr := r.stderr, finishedAt := Some(now));
    if r.error.Some? {
      var msg := if r.timedOut then TIMED_OUT else r.error.value;
      assert CompleteTask(s, t, r, now) == FailTask(s, reported, msg, now);
      FailTaskAccounted(s, reported, msg, now, u, x);
    } else {
      var done := reported.(exitCode := Some(r.exitCode)).TransitionTo(Success);
      assert CompleteTask(s, t, r, now) == if done.Ok? then Save(s, done.value) else s;
      if done.Ok? {
        SaveAccounted(s, done.value, u, x);
      }
    }
  }

  lemma {:induction false} FailTimedOutAccounted(s: State, ts: seq<Task>, now: int, u: Uid, x: Elsewhere)
    requires WellFormed(s) && StillRows(s.rows, ts) && Accounted(s, u, x)
    ensures Accounted(FailTimedOut(s, ts, now), u, x)
    decreases |ts|
  {
    if ts != [] {
      var next := if TimedOut(ts[0], now) then FailTask(s, ts[0], TIMED_OUT, now) else s;
      FailTaskKeepsWellFormed(s, ts[0], TIMED_OUT, now);
      FailTaskAccounted(s, ts[0], TIMED_OUT, now, u, x);
      SweepKeepsRest(s, ts, now);
      FailTimedOutAccounted(next, ts[1..], now, u, x);
    }
  }

  lemma LocalDoneAccounted(s: State, t: Task, r: TaskResult, now: int, u: Uid, x: Elsewhere)
    requires WellFormed(s) && t in s.locals && Accounted(s, u, x)
    ensures Accounted(LocalDone(s, t, r, now), u, x)
  {
    var left := s.(locals := s.locals - multiset{t});
    if t.uid != u {
      HoldsRemove(s.locals, t, u);
    }
    CompleteTaskAccounted(left, t, r, now, u, x);
  }

  lemma RemoteReportAccounted(s: State, uid: Uid, r: TaskResult, now: int, u: Uid, x: Elsewhere)
    requires WellFormed(s) && Accounted(s, u, x)
    ensures Accounted(RemoteReport(s, uid, r, now), u, x)
  {
    if uid in s.rows {
      var left := s.(pulled := s.pulled - multiset{uid});
      CompleteTaskAccounted(left, s.rows[uid], r, now, u, x);
    }
  }

  lemma NodeQueueGrows(queues: map<NodeId, seq<Task>>, node: NodeId, before: seq<Task>, more: seq<Task>, u: Uid)
    requires before == if node in queues then queues[node] else []
    ensures OnNode(queues, u) ==> OnNode(queues[node := before + more], u)
    ensures more != [] && more[0].uid == u ==> OnNode(queues[node := before + more], u)
  {
    var queues': map<NodeId, seq<Task>> := queues[node := before + more];
    if OnNode(queues, u) {
      var n: NodeId, i: int :| n in queues && 0 <= i < |queues[n]| && queues[n][i].uid == u;
      assert queues'[n][i].uid == u;
    }
    if more != [] {
      assert queues'[node][|before|] == more[0];
    }
  }

  /** The dispatched task has a run, and no other run has gone. */
  lemma DispatchRuns(s: State, t: Task, node: Option<NodeId>, now: int, u: Uid)
    requires Waiting(t) && t.uid in s.rows
    ensures var s' := Dispatch(s, t, node, now);
            (t.uid == u || HasRun(s, u) ==> HasRun(s', u)) && s'.queue == s.queue
            && s'.rows == s.rows[t.uid := RunningCopy(t, node, now)]
  {
    var run := RunningCopy(t, node, now);
    DispatchSucceeds(s, t, node, now);
    hide Dispatch;
    HoldsAdd(s.locals, run, u);
    if node.Some? {
      var before := NodeQueue(s, node.value);
      NodeQueueGrows(s.nodeQueues, node.value, before, if GoesRemote(s, node) then [run] else [], u);
      assert before + [] == before;
    }
    hide Holds, OnNode, NodeQueue;
  }

  lemma DispatchAccounted(s: State, t: Task, node: Option<NodeId>, now: int, u: Uid, x: Elsewhere)
    requires GoodCopy(s.rows, t) && Waiting(t)
    requires t.uid != u ==> Accounted(s, u, x)
    ensures Accounted(Dispatch(s, t, node, now), u, x)
  {
    DispatchRuns(s, t, node, now, u);
    hide Dispatch, HasRun, Copies, Holds;
  }

  lemma TickPopAccounted(s: State, t: Task, node: Option<NodeId>, now: int, u: Uid, x: Elsewhere)
    requires WellFormed(s) && s.tick.Some? && CanPop(s.queue, t) && Accounted(s, u, x)
    ensures Accounted(TickPop(s, t, node, now), u, x)
  {
    var popped := s.(queue := AfterPop(s.queue, t));
    PopKeepsWellFormed(s, t);
    if CanAllocate(t, s.tick.value.cpu, s.tick.value.mem) {
      if t.uid != u { PopOfOtherAccounted(s, t, u, x); }
      hide Accounted, Dispatch, WellFormed;
      DispatchAccounted(popped, t, node, now, u, x);
      TickChangesNothing(Dispatch(popped, t, node, now), TickPop(s, t, node, now), u, x);
    } else {
      DeferAccounted(s, t, u, x);
    }
  }

  lemma TickChangesNothing(s: State, s': State, u: Uid, x: Elsewhere)
    requires Accounted(s, u, x) && s' == s.(tick := s'.tick)
    ensures Accounted(s', u, x)
  {
  }

  lemma PopOfOtherAccounted(s: State, t: Task, u: Uid, x: Elsewhere)
    requires CanPop(s.queue, t) && Accounted(s, u, x) && t.uid != u
    ensures Accounted(s.(queue := AfterPop(s.queue, t)), u, x)
  {
  }

  lemma DeferAccounted(s: State, t: Task, u: Uid, x: Elsewhere)
    requires CanPop(s.queue, t) && Accounted(s, u, x)
    ensures Accounted(s.(queue := PushDelayed(AfterPop(s.queue, t), t)), u, x)
  {
  }

  lemma PullAccounted(s: State, node: NodeId, u: Uid, x: Elsewhere)
    requires Accounted(s, u, x)
    ensures Accounted(Pull(s, node), u, x)
  {
    var s' := Pull(s, node);
    if NodeQueue(s, node) != [] && OnNode(s.nodeQueues, u) && u !in s'.pulled {
      var n: NodeId, i: int :| n in s.nodeQueues && 0 <= i < |s.nodeQueues[n]| && s.nodeQueues[n][i].uid == u;
      assert s'.nodeQueues[n][if n == node then i - 1 else i].uid == u;
    }
  }

  lemma CreateAccounted(s: State, t: Task, u: Uid, x: Elsewhere)
    requires IsSubmission(s.rows, t) && Accounted(s, u, x)
    ensures Accounted(Create(s, t), u, x)
  {
  }

  lemma CancelAccounted(s: State, uid: Uid, u: Uid, x: Elsewhere)
    requires WellFormed(s) && Accounted(s, u, x)
    ensures Accounted(Cancel(s, uid), u, x)
  {
  }

  lemma ReleaseAccounted(s: State, moved: seq<Task>, u: Uid, x: Elsewhere)
    requires multiset(moved) <= s.queue.delayed && Accounted(s, u, x)
    ensures Accounted(s.(queue := Release(s.queue, moved)), u, x)
  {
  }

  lemma TickBeginAccounted(c: Config, s: State, snapshot: seq<Task>, now: int, u: Uid, x: Elsewhere)
    requires WellFormed(s) && IsSnapshot(s.rows, snapshot) && Accounted(s, u, x)
    ensures Accounted(TickBegin(c, s, snapshot, now), u, x)
  {
    FailTimedOutAccounted(s, snapshot, now, u, x);
  }

  lemma StepKeepsAccounted(c: Config, s: State, e: Event, u: Uid, x: Elsewhere)
    requires WellFormed(s) && Enabled(s, e) && Accounted(s, u, x)
    ensures Accounted(Apply(c, s, e), u, x)
  {
    match e {
      case ECreate(t) => CreateAccounted(s, t, u, x);
      case ETickBegin(snapshot, now) => TickBeginAccounted(c, s, snapshot, now, u, x);
      case ETickPop(t, node, now) => TickPopAccounted(s, t, node, now, u, x);
      case ELocalDone(t, r, now) => LocalDoneAccounted(s, t, r, now, u, x);
      case ERemoteReport(uid, r, now) => RemoteReportAccounted(s, uid, r, now, u, x);
      case EPull(node) => PullAccounted(s, node, u, x);
      case ECancel(uid) => CancelAccounted(s, uid, u, x);
      case ERelease(moved) => ReleaseAccounted(s, moved, u, x);
      case ETickEnd =>
    }
  }

  lemma {:induction false} RunKeepsAccounted(c: Config, s: State, es: seq<Event>, u: Uid, x: Elsewhere)
    requires WellFormed(s) && ValidRun(c, s, es) && Accounted(s, u, x)
    ensures Accounted(Run(c, s, es), u, x)
    decreases |es|
  {
    if es != [] {
      StepKeepsWellFormed(c, s, es[0]);
      StepKeepsAccounted(c, s, es[0], u, x);
      RunKeepsAccounted(c, Apply(c, s, es[0]), es[1..], u, x);
    }
  }

  /** Main result: in every state of every run, each Created or Pending row has a
      queue entry of its own, each Running row has a run outstanding, and every
      queue entry is itself waiting to be dispatched. */
  lemma NoTaskIsStranded(c: Config, es: seq<Event>, u: Uid)
    requires ValidRun(c, INITIAL, es) && u in Run(c, INITIAL, es).rows
    ensures Waiting(Run(c, INITIAL, es).rows[u]) ==> Holds(Copies(Run(c, INITIAL, es).queue), u)
    ensures Run(c, INITIAL, es).rows[u].status == Running ==> HasRun(Run(c, INITIAL, es), u)
    ensures AllWaiting(Copies(Run(c, INITIAL, es).queue))
  {
    InitiallyWithinBound(u);
    RunKeepsAccounted(c, INITIAL, es, u, NOWHERE);
    RunKeepsWellFormed(c, INITIAL, es);
  }

  /** This needs the push of the submission to succeed: a task that is only stored is
      stranded, and the others are as before. */
  lemma OnlyStoredIsStranded(s: State, t: Task, u: Uid)
    requires WellFormed(s) && IsSubmission(s.rows, t)
    ensures var s' := s.(rows := s.rows[t.uid := t]);
            && WellFormed(s') && Unheard(s', t.uid) && !Accounted(s', t.uid, NOWHERE)
            && (u != t.uid ==> (Accounted(s', u, NOWHERE) <==> Accounted(s, u, NOWHERE)))
  {
    NewRowKeepsGood(s.rows, t, Copies(s.queue));
    NewRowKeepsGood(s.rows, t, s.locals);
    FreshIsNotHeld(s.rows, Copies(s.queue), t.uid);
    FreshIsNotHeld(s.rows, s.locals, t.uid);
    hide Copies, OnNode, AllGood, GoodRows, AllWaiting, AllRunning, Holds;
  }

  lemma FreshIsNotHeld(rows: map<Uid, Task>, m: multiset<Task>, u: Uid)
    requires AllGood(rows, m) && u !in rows
    ensures !Holds(m, u)
  {
  }

  /** The task is stored, has not run, and no copy of it is queued or with an executor. */
  ghost predicate Unheard(s: State, u: Uid) {
    && u in s.rows && (s.rows[u].status == Created || s.rows[u].status == Canceled)
    && !Holds(Copies(s.queue), u) && !Holds(s.locals, u)
  }

  /** No report of a failed run of `u`, which nobody has been given. */
  predicate NoFailureOf(e: Event, u: Uid) {
    e.ERemoteReport? && e.uid == u ==> e.result.error.None?
  }

  lemma SaveSpares(s: State, t: Task, u: Uid)
    requires Unheard(s, u) && t.uid != u
    ensures Unheard(Save(s, t), u)
  {
    hide Copies;
  }

  lemma RetrySpares(s: State, again: Task, u: Uid)
    requires Unheard(s, u) && again.uid != u
    ensures Unheard(Save(s, again).(queue := PushDelayed(s.queue, again)), u)
  {
    PushCopies(s.queue, again);
    HoldsAdd(Copies(s.queue), again, u);
    hide Copies, Holds;
  }

  lemma FailTaskSpares(s: State, t: Task, msg: string, now: int, u: Uid)
    requires Unheard(s, u) && t.uid != u
    ensures Unheard(FailTask(s, t, msg, now), u) && FailTask(s, t, msg, now).started == s.started
  {
    if t.CanRetry() {
      RetrySpares(s, Retried(t, msg), u);
    } else {
      var failed := t.(errorMessage := msg, finishedAt := Some(now)).TransitionTo(Failed);
      if failed.Ok? { SaveSpares(s, failed.value, u); }
    }
    hide Unheard;
  }

  lemma CompleteTaskSpares(s: State, t: Task, r: TaskResult, now: int, u: Uid)
    requires Unheard(s, u) && t.uid != u
    ensures Unheard(CompleteTask(s, t, r, now), u) && CompleteTask(s, t, r, now).started == s.started
  {
    hide Unheard, FailTask;
    var reported := t.(stdout := r.stdout, stderr := r.stderr, finishedAt := Some(now));
    if r.error.Some? {
      FailTaskSpares(s, reported, if r.timedOut then TIMED_OUT else r.error.value, now, u);
    } else {
      var done := reported.(exitCode := Some(r.exitCode)).TransitionTo(Success);
      if done.Ok? { SaveSpares(s, done.value, u); }
    }
  }

  lemma {:induction false} SweepSpares(s: State, ts: seq<Task>, now: int, u: Uid)
    requires Unheard(s, u) && forall t :: t in ts ==> t.uid != u
    ensures Unheard(FailTimedOut(s, ts, now), u) && FailTimedOut(s, ts, now).started == s.started
    decreases |ts|
  {
    hide Unheard, FailTask;
    if ts != [] {
      assert ts[0] in ts;
      if TimedOut(ts[0], now) { FailTaskSpares(s, ts[0], TIMED_OUT, now, u); }
      SweepSpares(if TimedOut(ts[0], now) then FailTask(s, ts[0], TIMED_OUT, now) else s, ts[1..], now, u);
    }
  }

  lemma TickBeginSpares(c: Config, s: State, snapshot: seq<Task>, now: int, u: Uid)
    requires WellFormed(s) && Unheard(s, u) && IsSnapshot(s.rows, snapshot)
    ensures Unheard(TickBegin(c, s, snapshot, now), u) && TickBegin(c, s, snapshot, now).started == s.started
  {
    forall t | t in snapshot ensures t.uid != u { assert s.rows[t.uid].status == Running; }
    SweepSpares(s, snapshot, now, u);
    hide FailTimedOut, CpuOf, MemOf, Copies;
  }

  lemma PopSpares(s: State, t: Task, u: Uid)
    requires Unheard(s, u) && CanPop(s.queue, t)
    ensures t.uid != u && Unheard(s.(queue := AfterPop(s.queue, t)), u)
    ensures Unheard(s.(queue := PushDelayed(AfterPop(s.queue, t), t)), u)
  {
    PopCopies(s.queue, t);
    HoldsRemove(Copies(s.queue), t, u);
    PushCopies(AfterPop(s.queue, t), t);
    HoldsAdd(Copies(AfterPop(s.queue, t)), t, u);
    hide Copies, CanPop, AfterPop;
  }

  lemma DispatchSpares(s: State, t: Task, node: Option<NodeId>, now: int, u: Uid)
    requires Unheard(s, u) && t.uid != u && Waiting(t) && t.uid in s.rows
    ensures var s' := Dispatch(s, t, node, now); Unheard(s', u) && s'.started[u] == s.started[u]
  {
    DispatchSucceeds(s, t, node, now);
    HoldsAdd(s.locals, RunningCopy(t, node, now), u);
    hide Dispatch, Holds, Copies;
  }

  lemma TickPopSpares(s: State, t: Task, node: Option<NodeId>, now: int, u: Uid)
    requires WellFormed(s) && Unheard(s, u) && s.tick.Some? && CanPop(s.queue, t)
    ensures var s' := TickPop(s, t, node, now); Unheard(s', u) && s'.started[u] == s.started[u]
  {
    PopKeepsWellFormed(s, t);
    PopSpares(s, t, u);
    var popped := s.(queue := AfterPop(s.queue, t));
    hide WellFormed, CanPop, AfterPop;
    DispatchSpares(popped, t, node, now, u);
    hide Dispatch, Copies, Holds;
  }

  lemma StepSpares(c: Config, s: State, e: Event, u: Uid)
    requires WellFormed(s) && Enabled(s, e) && Unheard(s, u) && NoFailureOf(e, u)
    ensures Unheard(Apply(c, s, e), u) && Apply(c, s, e).started[u] == s.started[u]
  {
    hide WellFormed, TickBegin, TickPop, CompleteTask, IsSnapshot, CanPop, LocalDone, RemoteReport, Cancel;
    match e {
      case ECreate(t) => CreateSpares(s, t, u);
      case ETickBegin(snapshot, now) => TickBeginSpares(c, s, snapshot, now, u);
      case ETickPop(t, node, now) => TickPopSpares(s, t, node, now, u);
      case ELocalDone(t, r, now) => LocalDoneSpares(s, t, r, now, u);
      case ERemoteReport(uid, r, now) => RemoteReportSpares(s, uid, r, now, u);
      case ECancel(uid) => CancelSpares(s, uid, u);
      case ERelease(moved) =>
        ReleaseCopies(s.queue, moved);
        hide Copies, Release;
      case EPull(_) =>
      case ETickEnd =>
    }
  }

  lemma CreateSpares(s: State, t: Task, u: Uid)
    requires Unheard(s, u) && IsSubmission(s.rows, t)
    ensures Unheard(Create(s, t), u)
  {
    PushCopies(s.queue, t);
    HoldsAdd(Copies(s.queue), t, u);
    assert Copies(Create(s, t).queue) == Copies(s.queue) + multiset{t};
    hide Copies, Holds;
  }

  lemma LocalDoneSpares(s: State, t: Task, r: TaskResult, now: int, u: Uid)
    requires Unheard(s, u) && t in s.locals
    ensures Unheard(LocalDone(s, t, r, now), u) && LocalDone(s, t, r, now).started == s.started
  {
    HoldsRemove(s.locals, t, u);
    CompleteTaskSpares(s.(locals := s.locals - multiset{t}), t, r, now, u);
    hide CompleteTask, Copies;
  }

  lemma RemoteReportSpares(s: State, uid: Uid, r: TaskResult, now: int, u: Uid)
    requires WellFormed(s) && Unheard(s, u) && (uid == u ==> r.error.None?)
    ensures Unheard(RemoteReport(s, uid, r, now), u) && RemoteReport(s, uid, r, now).started == s.started
  {
    if uid in s.rows && uid != u {
      CompleteTaskSpares(s.(pulled := s.pulled - multiset{uid}), s.rows[uid], r, now, u);
      hide CompleteTask, Copies, Holds;
    }
    hide FailTask, Copies, Holds;
  }

  lemma CancelSpares(s: State, uid: Uid, u: Uid)
    requires WellFormed(s) && Unheard(s, u)
    ensures Unheard(Cancel(s, uid), u) && Cancel(s, uid).started == s.started
  {
    hide Copies, Holds;
  }

  /** Main result: such a task is never queued and never started, in any run, until a failure
      report for it arrives; only cancelling it changes its row. */
  lemma {:induction false} OnlyStoredNeverRuns(c: Config, s: State, es: seq<Event>, u: Uid)
    requires WellFormed(s) && Unheard(s, u) && ValidRun(c, s, es)
    requires forall i :: 0 <= i < |es| ==> NoFailureOf(es[i], u)
    ensures Unheard(Run(c, s, es), u) && Run(c, s, es).started[u] == s.started[u]
    decreases |es|
  {
    hide WellFormed, Unheard, Apply, Enabled;
    if es != [] {
      StepKeepsWellFormed(c, s, es[0]);
      StepSpares(c, s, es[0], u);
      OnlyStoredNeverRuns(c, Apply(c, s, es[0]), es[1..], u);
    }
  }

  /** So a popped task that fits is started: neither transition of dispatch is ever
      refused, on any copy that any run can leave in the queue. */
  lemma PoppedTaskIsStarted(c: Config, es: seq<Event>, t: Task, node: Option<NodeId>, now: int)
    requires ValidRun(c, INITIAL, es)
    requires var s := Run(c, INITIAL, es);
             Enabled(s, ETickPop(t, node, now)) && CanAllocate(t, s.tick.value.cpu, s.tick.value.mem)
    ensures var s := Run(c, INITIAL, es); var s' := TickPop(s, t, node, now);
            && t.uid in s'.rows && s'.rows[t.uid].status == Running && HasRun(s', t.uid)
            && s'.started == s.started + multiset{t.uid}
  {
    var s := Run(c, INITIAL, es);
    InitiallyWithinBound(t.uid);
    RunKeepsWellFormed(c, INITIAL, es);
    PopKeepsWellFormed(s, t);
    var popped := s.(queue := AfterPop(s.queue, t));
    DispatchSucceeds(popped, t, node, now);
    DispatchAccounted(popped, t, node, now, t.uid, NOWHERE);
  }
}
