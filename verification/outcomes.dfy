/** What each handler of the lifecycle machine leaves behind, field by field
    (internal/scheduler/scheduler.go, internal/service/task_service.go). */
module Outcomes {
  import opened Sums
  import opened Tasks
  import opened TaskQueue
  import opened Lifecycle
  import opened DispatchBound
  import opened Ledger

  // ----- The end of a run -----

  /** What the result `r` of the run `t` makes of its row and of the queue: Success with the
      exit code and the output; or, with an error, one more retry, or Failed. */
  ghost predicate RunEnded(before: State, t: Task, r: TaskResult, now: int, after: State) {
    var reason := if r.error.None? then "" else if r.timedOut then "task timed out" else r.error.value;
    var again := t.(status := Pending, retryCount := t.retryCount + 1, stdout := r.stdout, stderr := r.stderr,
                    finishedAt := None, errorMessage := reason);
    if r.error.None? then
      && after.queue == before.queue
      && after.rows == before.rows[t.uid := t.(status := Success, exitCode := Some(r.exitCode), stdout := r.stdout,
                                               stderr := r.stderr, finishedAt := Some(now))]
    else if t.retryCount < t.maxRetries then
      && after.queue == before.queue.(delayed := before.queue.delayed + multiset{again})
      && after.rows == before.rows[t.uid := again]
    else
      && after.queue == before.queue
      && after.rows == before.rows[t.uid := t.(status := Failed, stdout := r.stdout, stderr := r.stderr,
                                               finishedAt := Some(now), errorMessage := reason)]
  }

  lemma LocalDoneOutcome(s: State, t: Task, r: TaskResult, now: int)
    requires WellFormed(s) && t in s.locals
    ensures var s' := LocalDone(s, t, r, now);
            s' == s.(rows := s'.rows, queue := s'.queue, locals := s.locals - multiset{t})
    ensures RunEnded(s, t, r, now, LocalDone(s, t, r, now))
  {
    assert t.uid in s.rows && t.status == Running by { hide AllWaiting, GoodRows; }
    hide WellFormed;
    var left := s.(locals := s.locals - multiset{t});
    RunEnds(left, t, r, now);
    SameRowsAndQueue(left, s, t, r, now, LocalDone(s, t, r, now));
    hide CompleteTask, RunEnded;
  }

  lemma SameRowsAndQueue(a: State, b: State, t: Task, r: TaskResult, now: int, after: State)
    requires a.rows == b.rows && a.queue == b.queue
    ensures RunEnded(a, t, r, now, after) <==> RunEnded(b, t, r, now, after)
  {
  }

  lemma RunEnds(s: State, t: Task, r: TaskResult, now: int)
    requires t.uid in s.rows && (t.status == Running || (r.error.Some? && t.retryCount < t.maxRetries))
    ensures RunEnded(s, t, r, now, CompleteTask(s, t, r, now))
    ensures var s' := CompleteTask(s, t, r, now); s' == s.(rows := s'.rows, queue := s'.queue)
  {
  }

  lemma LateReportIsRefused(s: State, t: Task, r: TaskResult, now: int)
    requires t.status != Running && (r.error.None? || t.retryCount >= t.maxRetries)
    ensures CompleteTask(s, t, r, now) == s
  {
  }

  /** A report by an agent does the same to the row, whether it is Running or a failure finds
      retries left; in any other case it changes nothing. */
  lemma RemoteReportOutcome(s: State, uid: Uid, r: TaskResult, now: int)
    requires WellFormed(s)
    ensures var s' := RemoteReport(s, uid, r, now);
            s' == s.(rows := s'.rows, queue := s'.queue,
                     pulled := if uid in s.rows then s.pulled - multiset{uid} else s.pulled)
    ensures var s' := RemoteReport(s, uid, r, now);
            if uid in s.rows && (s.rows[uid].status == Running
                                 || (r.error.Some? && s.rows[uid].retryCount < s.rows[uid].maxRetries))
            then RunEnded(s, s.rows[uid], r, now, s') else s'.rows == s.rows && s'.queue == s.queue
  {
    if uid in s.rows {
      assert s.rows[uid].uid == uid by { hide AllGood, AllWaiting, AllRunning; }
      hide WellFormed;
      var left := s.(pulled := s.pulled - multiset{uid});
      var t := s.rows[uid];
      if t.status == Running || (r.error.Some? && t.retryCount < t.maxRetries) {
        RunEnds(left, t, r, now);
        SameRowsAndQueue(left, s, t, r, now, RemoteReport(s, uid, r, now));
      } else {
        LateReportIsRefused(left, t, r, now);
      }
      hide CompleteTask, RunEnded;
    }
  }

  // ----- The sweep -----

  /** The sweep of one row past its deadline. */
  lemma FailedRow(s: State, t: Task, now: int)
    requires t.uid in s.rows && s.rows[t.uid] == t && t.status == Running && t.retryCount <= t.maxRetries
    ensures var s' := FailTask(s, t, "task timed out", now);
            var again := t.(status := Pending, retryCount := t.retryCount + 1, finishedAt := None,
                            errorMessage := "task timed out");
            var failed := t.(status := Failed, finishedAt := Some(now), errorMessage := "task timed out");
            s' == if t.retryCount < t.maxRetries
                  then s.(rows := s.rows[t.uid := again],
                          queue := s.queue.(delayed := s.queue.delayed + multiset{again}))
                  else s.(rows := s.rows[t.uid := failed])
  {
  }

  /** Rows read by the sweep: the running rows, each once, within their retries. */
  ghost predicate Sweepable(rows: map<Uid, Task>, ts: seq<Task>) {
    StillRows(rows, ts) && forall t :: t in ts ==> t.status == Running && t.retryCount <= t.maxRetries
  }

  /** What the head of the list leaves: the state in which the sweep goes on. */
  lemma SweepHead(s: State, ts: seq<Task>, now: int) returns (next: State)
    requires ts != [] && Sweepable(s.rows, ts)
    ensures FailTimedOut(s, ts, now) == FailTimedOut(next, ts[1..], now) && Sweepable(next.rows, ts[1..])
    ensures next.rows.Keys == s.rows.Keys && forall u :: u in s.rows && u != ts[0].uid ==> next.rows[u] == s.rows[u]
    ensures next == s.(rows := next.rows, queue := next.queue)
    ensures var t := ts[0];
            var again := t.(status := Pending, retryCount := t.retryCount + 1, finishedAt := None,
                            errorMessage := "task timed out");
            if t.startedAt.None? || t.timeoutSec <= 0 || now <= t.startedAt.value + t.timeoutSec * 1_000_000_000
            then next == s
            else if t.retryCount < t.maxRetries
            then next.rows[t.uid] == again && next.queue == s.queue.(delayed := s.queue.delayed + multiset{again})
            else next.rows[t.uid] == t.(status := Failed, finishedAt := Some(now), errorMessage := "task timed out")
                 && next.queue == s.queue
  {
    next := if TimedOut(ts[0], now) then FailTask(s, ts[0], "task timed out", now) else s;
    FailedRow(s, ts[0], now);
    SweepKeepsRest(s, ts, now);
    hide FailTask;
  }

  lemma {:induction false} SweepSparesOthers(s: State, ts: seq<Task>, now: int, u: Uid)
    requires Sweepable(s.rows, ts) && u in s.rows && forall t :: t in ts ==> t.uid != u
    ensures u in FailTimedOut(s, ts, now).rows && FailTimedOut(s, ts, now).rows[u] == s.rows[u]
    decreases |ts|
  {
    if ts != [] {
      var next := SweepHead(s, ts, now);
      hide Sweepable, FailTimedOut;
      SweepSparesOthers(next, ts[1..], now, u);
    }
  }

  /** Main result: a sweep leaves the row of a running task alone exactly when the task has
      no start time or no timeout or its timeout has not passed; otherwise it is requeued
      with one more retry, or Failed. */
  lemma {:induction false} SweepOutcome(s: State, ts: seq<Task>, now: int, t: Task)
    requires Sweepable(s.rows, ts) && t in ts
    ensures t.uid in FailTimedOut(s, ts, now).rows
    ensures FailTimedOut(s, ts, now).rows[t.uid] == t
       <==> t.startedAt.None? || t.timeoutSec <= 0 || now <= t.startedAt.value + t.timeoutSec * 1_000_000_000
    ensures var row := FailTimedOut(s, ts, now).rows[t.uid];
            row != t ==> row == if t.retryCount < t.maxRetries
                                then t.(status := Pending, retryCount := t.retryCount + 1, finishedAt := None,
                                        errorMessage := "task timed out")
                                else t.(status := Failed, finishedAt := Some(now), errorMessage := "task timed out")
    decreases |ts|
  {
    var next := SweepHead(s, ts, now);
    if t == ts[0] {
      assert forall x :: x in ts[1..] ==> x.uid != t.uid;
      assert t.uid in next.rows && (next == s ==> next.rows[t.uid] == t);
      hide FailTimedOut;
      SweepSparesOthers(next, ts[1..], now, t.uid);
    } else {
      hide Sweepable, FailTimedOut;
      SweepOutcome(next, ts[1..], now, t);
    }
  }

  /** `again` lists the rows that the sweep has made Pending, each once. */
  ghost predicate MadePending(before: map<Uid, Task>, after: map<Uid, Task>, again: seq<Task>) {
    && before.Keys == after.Keys
    && (forall u :: u in before && after[u].uid == u ==>
          (after[u] in again <==> after[u] != before[u] && after[u].status == Pending))
    && (forall x :: x in again ==> x.uid in after && after[x.uid] == x)
    && (forall i, j :: 0 <= i < j < |again| ==> again[i].uid != again[j].uid)
  }

  lemma HeadMadePending(before: map<Uid, Task>, next: map<Uid, Task>, after: map<Uid, Task>, more: seq<Task>, t: Task)
    requires t.uid in before && before[t.uid] == t && next.Keys == before.Keys && MadePending(next, after, more)
    requires forall u :: u in before && u != t.uid ==> next[u] == before[u]
    requires t.uid in after && after[t.uid] == next[t.uid] && next[t.uid].uid == t.uid
    requires t.status == Running
    ensures next[t.uid].status == Pending ==> MadePending(before, after, [next[t.uid]] + more)
    ensures next[t.uid].status != Pending ==> MadePending(before, after, more)
  {
  }

  /** And what it queues are exactly the rows that it makes Pending. */
  lemma {:induction false} SweepQueues(s: State, ts: seq<Task>, now: int) returns (again: seq<Task>)
    requires Sweepable(s.rows, ts)
    ensures var s' := FailTimedOut(s, ts, now);
            && s' == s.(rows := s'.rows, queue := s.queue.(delayed := s.queue.delayed + multiset(again)))
            && MadePending(s.rows, s'.rows, again)
    decreases |ts|
  {
    if ts == [] {
      again := [];
    } else {
      var t := ts[0];
      var next := SweepHead(s, ts, now);
      HeadIsSpared(next, s.rows, ts, now);
      hide FailTimedOut, Sweepable, MadePending;
      var more := SweepQueues(next, ts[1..], now);
      HeadMadePending(s.rows, next.rows, FailTimedOut(next, ts[1..], now).rows, more, t);
      again := if next.rows[t.uid].status == Pending then [next.rows[t.uid]] + more else more;
    }
  }

  lemma HeadIsSpared(next: State, rows: map<Uid, Task>, ts: seq<Task>, now: int)
    requires ts != [] && Sweepable(rows, ts) && Sweepable(next.rows, ts[1..]) && ts[0].uid in next.rows
    ensures ts[0].status == Running && ts[0].uid in rows && rows[ts[0].uid] == ts[0]
    ensures var rows' := FailTimedOut(next, ts[1..], now).rows;
            ts[0].uid in rows' && rows'[ts[0].uid] == next.rows[ts[0].uid]
  {
    assert forall x :: x in ts[1..] ==> x.uid != ts[0].uid;
    SweepSparesOthers(next, ts[1..], now, ts[0].uid);
    hide FailTimedOut;
  }

  lemma SnapshotIsSweepable(s: State, snapshot: seq<Task>)
    requires WellFormed(s) && IsSnapshot(s.rows, snapshot)
    ensures Sweepable(s.rows, snapshot)
  {
    hide AllGood, AllWaiting, AllRunning;
  }

  /** Main result: so does the begin of a tick, which leaves all rows that are not Running
      alone. */
  lemma TickBeginOutcome(c: Config, s: State, snapshot: seq<Task>, now: int, u: Uid)
    requires WellFormed(s) && IsSnapshot(s.rows, snapshot) && u in s.rows
    ensures u in TickBegin(c, s, snapshot, now).rows
    ensures var t := s.rows[u];
            TickBegin(c, s, snapshot, now).rows[u] == t <==>
              || t.status != Running || t.startedAt.None? || t.timeoutSec <= 0
              || now <= t.startedAt.value + t.timeoutSec * 1_000_000_000
    ensures var t, row := s.rows[u], TickBegin(c, s, snapshot, now).rows[u];
            row != t ==> row == if t.retryCount < t.maxRetries
                                then t.(status := Pending, retryCount := t.retryCount + 1, finishedAt := None,
                                        errorMessage := "task timed out")
                                else t.(status := Failed, finishedAt := Some(now), errorMessage := "task timed out")
  {
    SnapshotIsSweepable(s, snapshot);
    assert s.rows[u].uid == u by { hide AllGood, AllWaiting, AllRunning, IsSnapshot; }
    hide WellFormed, Sweepable, FailTimedOut, CpuOf, MemOf;
    if s.rows[u].status == Running {
      SweepOutcome(s, snapshot, now, s.rows[u]);
    } else {
      SweepSparesOthers(s, snapshot, now, u);
    }
  }

  /** A tick opens its dispatch loop exactly when a slot is free, with what the Running rows
      leave of every limit. */
  lemma TickOpensWithTheRest(c: Config, s: State, snapshot: seq<Task>, now: int)
    requires WellFormed(s) && s.tick.None? && IsSnapshot(s.rows, snapshot)
    ensures var tick := TickBegin(c, s, snapshot, now).tick;
            && (tick.None? <==> Used(Slot, s.rows) >= c.maxConcurrent)
            && (tick.Some? ==> && tick.value.cpu == c.totalCpu - Used(Cpu, s.rows)
                               && tick.value.mem == c.totalMem - Used(Mem, s.rows)
                               && tick.value.slots == c.maxConcurrent - Used(Slot, s.rows))
  {
    SnapshotIsGood(s, snapshot, Cpu);
    SnapshotIsGood(s, snapshot, Mem);
    SnapshotIsExact(s.rows, snapshot, Cpu);
    SnapshotIsExact(s.rows, snapshot, Mem);
    SnapshotIsExact(s.rows, snapshot, Slot);
    LimitsAreSums(snapshot);
    SweepFrees(s, snapshot, now, Slot);
    hide WellFormed, FailTimedOut, CpuOf, MemOf, Used, IsSnapshot;
  }

  // ----- Dispatch, and what agents are handed -----

  /** A dispatched copy becomes Running at `now`: on a node with fewer than ten tasks waiting
      it joins their end, in any other case it runs locally. */
  lemma DispatchOutcome(s: State, t: Task, node: Option<NodeId>, now: int)
    requires Waiting(t) && t.uid in s.rows
    ensures var s' := Dispatch(s, t, node, now);
            var run := t.(status := Running, startedAt := Some(now),
                          assignedNodeId := if node.Some? then node.value else t.assignedNodeId);
            && s'.rows == s.rows[t.uid := run] && s'.started == s.started + multiset{t.uid}
            && s'.queue == s.queue && s'.pulled == s.pulled && s'.tick == s.tick
            && (if node.Some? && |NodeQueue(s, node.value)| < 10
                then NodeQueue(s', node.value) == NodeQueue(s, node.value) + [run] && s'.locals == s.locals
                else s'.locals == s.locals + multiset{run}
                     && (node.Some? ==> NodeQueue(s', node.value) == NodeQueue(s, node.value)))
            && forall other :: Some(other) != node ==> NodeQueue(s', other) == NodeQueue(s, other)
  {
    DispatchSucceeds(s, t, node, now);
    hide Dispatch;
  }

  /** What an event sends to the queue of the node: a popped task that fits, for that node,
      while fewer than ten wait there. */
  ghost function SentBy(s: State, e: Event, node: NodeId): seq<Task>
    requires Enabled(s, e)
  {
    match e
    case ETickPop(t, Some(n), now) =>
      if n == node && CanAllocate(t, s.tick.value.cpu, s.tick.value.mem) && |NodeQueue(s, node)| < 10
      then [t.(status := Running, startedAt := Some(now), assignedNodeId := node)] else []
    case _ => []
  }

  /** What an event hands to an agent of the node: to a pull, the oldest waiting task. */
  ghost function HandedBy(s: State, e: Event, node: NodeId): seq<Task> {
    if e == EPull(node) && NodeQueue(s, node) != [] then [NodeQueue(s, node)[0]] else []
  }

  ghost function Sent(c: Config, s: State, es: seq<Event>, node: NodeId): seq<Task>
    requires ValidRun(c, s, es)
    decreases |es|
  {
    if es == [] then [] else SentBy(s, es[0], node) + Sent(c, Apply(c, s, es[0]), es[1..], node)
  }

  ghost function Handed(c: Config, s: State, es: seq<Event>, node: NodeId): seq<Task>
    requires ValidRun(c, s, es)
    decreases |es|
  {
    if es == [] then [] else HandedBy(s, es[0], node) + Handed(c, Apply(c, s, es[0]), es[1..], node)
  }

  /** A pull takes the oldest task off the queue of its node, and records it as pulled. */
  lemma PullOutcome(s: State, node: NodeId, other: NodeId)
    ensures var s' := Pull(s, node);
            && s' == s.(nodeQueues := s'.nodeQueues, pulled := s'.pulled)
            && HandedBy(s, EPull(node), node) + NodeQueue(s', node) == NodeQueue(s, node)
            && (other != node ==> NodeQueue(s', other) == NodeQueue(s, other))
            && s'.pulled == if NodeQueue(s, node) == [] then s.pulled
                            else s.pulled + multiset{NodeQueue(s, node)[0].uid}
  {
  }

  lemma TickPopSends(s: State, t: Task, to: Option<NodeId>, now: int, node: NodeId)
    requires WellFormed(s) && Enabled(s, ETickPop(t, to, now))
    ensures NodeQueue(TickPop(s, t, to, now), node) == NodeQueue(s, node) + SentBy(s, ETickPop(t, to, now), node)
  {
    PopKeepsWellFormed(s, t);
    assert Waiting(t) && t.uid in s.rows;
    hide WellFormed, CanPop, AfterPop, Waiting, GoodCopy, TickPlace;
    PlaceSends(s.(queue := AfterPop(s.queue, t)), t, to, now, node);
    assert NodeQueue(s.(queue := AfterPop(s.queue, t)), node) == NodeQueue(s, node);
    hide NodeQueue, CanAllocate;
  }

  lemma PlaceSends(s: State, t: Task, to: Option<NodeId>, now: int, node: NodeId)
    requires s.tick.Some? && Waiting(t) && t.uid in s.rows
    ensures NodeQueue(TickPlace(s, t, to, now), node)
         == NodeQueue(s, node) + if to == Some(node) && CanAllocate(t, s.tick.value.cpu, s.tick.value.mem)
                                    && |NodeQueue(s, node)| < 10
                                 then [t.(status := Running, startedAt := Some(now), assignedNodeId := node)] else []
  {
    if CanAllocate(t, s.tick.value.cpu, s.tick.value.mem) { DispatchSends(s, t, to, now, node); }
    hide Dispatch;
  }

  lemma DispatchSends(s: State, t: Task, to: Option<NodeId>, now: int, node: NodeId)
    requires Waiting(t) && t.uid in s.rows
    ensures NodeQueue(Dispatch(s, t, to, now), node)
         == NodeQueue(s, node) + if to == Some(node) && |NodeQueue(s, node)| < 10
                                 then [t.(status := Running, startedAt := Some(now), assignedNodeId := node)] else []
  {
    DispatchOutcome(s, t, to, now);
    hide Dispatch, NodeQueue;
  }

  lemma {:induction false} SweepKeepsNodeQueues(s: State, ts: seq<Task>, now: int)
    ensures FailTimedOut(s, ts, now).nodeQueues == s.nodeQueues
    decreases |ts|
  {
    if ts != [] {
      SweepKeepsNodeQueues(if TimedOut(ts[0], now) then FailTask(s, ts[0], TIMED_OUT, now) else s, ts[1..], now);
    }
  }

  lemma CompleteKeepsNodeQueues(s: State, t: Task, r: TaskResult, now: int)
    ensures CompleteTask(s, t, r, now).nodeQueues == s.nodeQueues
  {
  }

  lemma OthersKeepNodeQueues(c: Config, s: State, e: Event)
    requires Enabled(s, e) && !e.ETickPop? && !e.EPull?
    ensures Apply(c, s, e).nodeQueues == s.nodeQueues
  {
    hide IsSnapshot, CompleteTask, FailTimedOut, IsSubmission;
    match e {
      case ETickBegin(snapshot, now) => SweepKeepsNodeQueues(s, snapshot, now);
      case ELocalDone(t, r, now) => CompleteKeepsNodeQueues(s.(locals := s.locals - multiset{t}), t, r, now);
      case ERemoteReport(uid, r, now) =>
        if uid in s.rows { CompleteKeepsNodeQueues(s.(pulled := s.pulled - multiset{uid}), s.rows[uid], r, now); }
      case _ =>
    }
  }

  lemma StepIsFifo(c: Config, s: State, e: Event, node: NodeId)
    requires WellFormed(s) && Enabled(s, e)
    ensures NodeQueue(s, node) + SentBy(s, e, node)
         == HandedBy(s, e, node) + NodeQueue(Apply(c, s, e), node)
  {
    hide WellFormed;
    if e.ETickPop? {
      TickPopSends(s, e.task, e.node, e.now, node);
      hide SentBy, TickPop, NodeQueue;
    } else if e.EPull? {
      PullOutcome(s, e.nodeId, node);
      hide Pull, NodeQueue;
    } else {
      OthersKeepNodeQueues(c, s, e);
      hide Apply, Enabled;
    }
  }

  /** Main result: over every run the agents of a node are handed exactly the tasks that were
      sent to it, in the order of their dispatch and each once; the rest still wait. */
  lemma {:induction false} PullsAreFifo(c: Config, s: State, es: seq<Event>, node: NodeId)
    requires WellFormed(s) && ValidRun(c, s, es)
    ensures NodeQueue(s, node) + Sent(c, s, es, node) == Handed(c, s, es, node) + NodeQueue(Run(c, s, es), node)
    decreases |es|
  {
    hide WellFormed, Apply, Enabled, SentBy, HandedBy, NodeQueue;
    if es != [] {
      StepKeepsWellFormed(c, s, es[0]);
      StepIsFifo(c, s, es[0], node);
      var next := Apply(c, s, es[0]);
      PullsAreFifo(c, next, es[1..], node);
      QueuesChain(NodeQueue(s, node), SentBy(s, es[0], node), HandedBy(s, es[0], node), NodeQueue(next, node),
                  Sent(c, next, es[1..], node), Handed(c, next, es[1..], node), NodeQueue(Run(c, s, es), node));
    }
  }

  lemma QueuesChain<T>(q: seq<T>, sent: seq<T>, handed: seq<T>, mid: seq<T>, more: seq<T>, later: seq<T>, end: seq<T>)
    requires q + sent == handed + mid && mid + more == later + end
    ensures q + (sent + more) == (handed + later) + end
  {
    assert q + (sent + more) == (q + sent) + more;
    assert (handed + later) + end == handed + (later + end);
    assert handed + (mid + more) == (handed + mid) + more;
  }

  /** So from the start on, what was handed out is a beginning of what was sent. */
  lemma HandedInOrder(c: Config, es: seq<Event>, node: NodeId)
    requires ValidRun(c, INITIAL, es)
    ensures Handed(c, INITIAL, es, node) <= Sent(c, INITIAL, es, node)
    ensures |Sent(c, INITIAL, es, node)| <= |Handed(c, INITIAL, es, node)| + 10
  {
    InitiallyWithinBound("");
    PullsAreFifo(c, INITIAL, es, node);
    NodeQueuesAreShort(c, INITIAL, es, node);
    assert NodeQueue(INITIAL, node) == [];
    hide Run, Sent, Handed, NodeQueue;
    assert Sent(c, INITIAL, es, node) == Handed(c, INITIAL, es, node) + NodeQueue(Run(c, INITIAL, es), node);
  }

  lemma {:induction false} NodeQueuesAreShort(c: Config, s: State, es: seq<Event>, node: NodeId)
    requires WellFormed(s) && ValidRun(c, s, es) && |NodeQueue(s, node)| <= 10
    ensures |NodeQueue(Run(c, s, es), node)| <= 10
    decreases |es|
  {
    hide WellFormed, Apply, Enabled, NodeQueue;
    if es != [] {
      StepKeepsWellFormed(c, s, es[0]);
      StepKeepsShort(c, s, es[0], node);
      NodeQueuesAreShort(c, Apply(c, s, es[0]), es[1..], node);
    }
  }

  lemma StepKeepsShort(c: Config, s: State, e: Event, node: NodeId)
    requires WellFormed(s) && Enabled(s, e) && |NodeQueue(s, node)| <= 10
    ensures |NodeQueue(Apply(c, s, e), node)| <= 10
  {
    StepIsFifo(c, s, e, node);
    hide WellFormed, Enabled, Apply, NodeQueue;
  }

  // ----- Submission -----

  /** A submission with a positive priority joins the priority bag, any other the end of the
      ready list. */
  lemma CreateOutcome(s: State, t: Task)
    ensures var s' := Create(s, t);
            && s' == s.(rows := s.rows[t.uid := t], queue := s'.queue) && s'.queue.delayed == s.queue.delayed
            && (t.priority > 0 ==>
                  s'.queue.prio == s.queue.prio + multiset{t} && s'.queue.ready == s.queue.ready)
            && (t.priority <= 0 ==>
                  s'.queue.prio == s.queue.prio && s'.queue.ready == s.queue.ready + [t])
  {
  }

  /** Main result: right after its submission a task with a positive priority is popped before
      everything in the ready list and before every queued task of lower priority; one
      without comes after everything that is ready. */
  lemma SubmissionsInOrder(s: State, t: Task, ts: seq<Task>)
    requires TaskQueue.Pops(Create(s, t).queue, ts)
    ensures t.priority > 0 && |ts| > |s.queue.prio| ==>
              t in ts[..|s.queue.prio| + 1] && multiset(ts[..|s.queue.prio| + 1]) == s.queue.prio + multiset{t}
    ensures t.priority <= 0 && |ts| > |s.queue.prio| + |s.queue.ready| ==>
              ts[|s.queue.prio| + |s.queue.ready|] == t
  {
    CreateOutcome(s, t);
    hide Create, Pops, CanPop;
    if t.priority > 0 {
      if |ts| > |s.queue.prio| { UrgentIsInFront(Create(s, t).queue, s.queue.prio, t, ts); }
    } else if |ts| > |s.queue.prio| + |s.queue.ready| {
      ThenOldestFirst(Create(s, t).queue, ts, |s.queue.prio| + |s.queue.ready|);
    }
  }

  lemma UrgentIsInFront(q: Queue, bag: multiset<Task>, t: Task, ts: seq<Task>)
    requires Pops(q, ts) && q.prio == bag + multiset{t} && |ts| > |bag|
    ensures t in ts[..|bag| + 1] && multiset(ts[..|bag| + 1]) == bag + multiset{t}
  {
    BagEmptiesFirst(q, ts);
    hide Pops;
    assert |q.prio| == |bag| + 1;
    assert t in multiset(ts[..|bag| + 1]);
  }
}
