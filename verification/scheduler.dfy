/** The scheduler and the task service as they are written: objects that update the
    tasks table, the queue and their own maps in place (internal/scheduler/scheduler.go,
    internal/service/task_service.go).  Every method is proved to do exactly what the
    lifecycle machine says, and a tick is proved to be one of its runs. */
module Scheduling {
  import opened Tasks
  import opened Nodes
  import opened NodeManagement
  import opened NodeSelection
  import opened InMemQueues
  import opened FirstFit
  import Backoff
  import Lifecycle
  import Outcomes
  import TaskQueue

  class TaskStore {
    var rows: map<Uid, Task>

    constructor ()
      ensures rows == map[]
    {
      rows := map[];
    }

    /** The INSERT fails for a uid that is already there. */
    method Create(t: Task) returns (ok: bool)
      modifies this
      ensures ok <==> t.uid !in old(rows)
      ensures rows == if ok then old(rows)[t.uid := t] else old(rows)
    {
      ok := t.uid !in rows;
      if ok { rows := rows[t.uid := t]; }
    }

    method Update(t: Task)
      modifies this
      ensures rows == Lifecycle.Update(old(rows), t)
    {
      if t.uid in rows { rows := rows[t.uid := t]; }
    }

    method GetByUid(uid: Uid) returns (r: Result<Task>)
      ensures r == if uid in rows then Ok(rows[uid]) else Err
    {
      r := if uid in rows then Ok(rows[uid]) else Err;
    }

    /** The Running rows, each once. */
    method GetRunningTasks() returns (ts: seq<Task>)
      requires forall u :: u in rows ==> rows[u].uid == u
      ensures Lifecycle.IsSnapshot(rows, ts)
    {
      ts := [];
      var rest := rows.Keys;
      while rest != {}
        invariant rest <= rows.Keys
        invariant forall t :: t in ts ==> t.uid in rows && t.uid !in rest && rows[t.uid] == t && t.status == Running
        invariant forall i, j :: 0 <= i < j < |ts| ==> ts[i].uid != ts[j].uid
        invariant forall u :: u in rows && u !in rest && rows[u].status == Running ==> rows[u] in ts
        decreases |rest|
      {
        var u :| u in rest;
        rest := rest - {u};
        if rows[u].status == Running { ts := ts + [rows[u]]; }
      }
    }
  }

  class Scheduler {
    const store: TaskStore
    const queue: InMemQueue
    const nodeMgr: NodeManager?
    const config: Lifecycle.Config
    var nodeTasks: map<NodeId, seq<Task>>
    /** The copies owned by executor goroutines. */
    var running: multiset<Task>
    /** The tasks agents have pulled and not reported. */
    var pulled: multiset<Uid>
    ghost var tick: Option<Lifecycle.Budget>
    ghost var started: multiset<Uid>

    ghost function View(): Lifecycle.State
      reads this, store, queue
    {
      Lifecycle.State(store.rows, queue.Contents(), running, nodeTasks, pulled, tick, started)
    }

    ghost predicate Valid()
      reads this, store, queue
    {
      queue.Valid() && Lifecycle.WellFormed(View())
    }

    constructor (nodeMgr: NodeManager?, config: Lifecycle.Config)
      ensures Valid() && View() == Lifecycle.INITIAL
      ensures fresh(store) && fresh(queue) && this.nodeMgr == nodeMgr && this.config == config
    {
      this.store := new TaskStore();
      this.queue := new InMemQueue();
      this.nodeMgr, this.config := nodeMgr, config;
      nodeTasks, running, pulled := map[], multiset{}, multiset{};
      tick, started := None, multiset{};
      new;
      assert View() == Lifecycle.INITIAL;
    }

    /** The retry branch of FailTask: back to Pending, delayed with backoff. */
    method Retry(task: Task, msg: string, now: int)
      requires queue.Valid() && task.retryCount >= 0 && task.CanRetry()
      modifies store, queue`delayed
      ensures queue.Valid() && View() == Lifecycle.FailTask(old(View()), task, msg, now)
      ensures queue.delayed == old(queue.delayed) +
                [DelayedItem(Lifecycle.Retried(task, msg),
                             now + Backoff.RetryDelay(task.retryIntervalSec, task.retryCount + 1))]
    {
      var t := task.(errorMessage := msg);
      t := t.(retryCount := t.retryCount + 1);
      t := t.(status := Pending);
      t := t.(finishedAt := None);
      assert t == Lifecycle.Retried(task, msg);
      store.Update(t);
      var delay := Backoff.RetryDelay(t.retryIntervalSec, t.retryCount);
      queue.PushDelayed(t, delay, now);
    }

    /** Re-enqueues the task while it has retries left, else fails it. */
    method FailTask(task: Task, msg: string, now: int)
      requires queue.Valid() && task.retryCount >= 0
      modifies store, queue`delayed
      ensures queue.Valid() && View() == Lifecycle.FailTask(old(View()), task, msg, now)
      ensures queue.delayed == old(queue.delayed) +
                if task.retryCount < task.maxRetries
                then [DelayedItem(Lifecycle.Retried(task, msg),
                                  now + Backoff.RetryDelay(task.retryIntervalSec, task.retryCount + 1))]
                else []
    {
      if task.CanRetry() {
        Retry(task, msg, now);
        return;
      }
      var t := task.(errorMessage := msg, finishedAt := Some(now));
      match t.TransitionTo(Failed) {
        case Err => return;
        case Ok(failed) => store.Update(failed);
      }
    }

    method CompleteTask(task: Task, result: TaskResult, now: int)
      requires queue.Valid() && task.retryCount >= 0
      modifies store, queue`delayed
      ensures queue.Valid() && View() == Lifecycle.CompleteTask(old(View()), task, result, now)
      ensures queue.delayed == old(queue.delayed) + Requeued(task, result, now)
    {
      hide Lifecycle.FailTask;
      var t := task.(stdout := result.stdout, stderr := result.stderr, finishedAt := Some(now));
      if result.error.Some? {
        FailTask(t, if result.timedOut then TIMED_OUT else result.error.value, now);
        return;
      }
      t := t.(exitCode := Some(result.exitCode));
      match t.TransitionTo(Success) {
        case Err => return;
        case Ok(done) => store.Update(done);
      }
    }

    /** A local executor goroutine ends with `result`: its row becomes Success with the exit
        code and the output; or, with an error, Pending again and due after the backoff, or
        Failed when no retry is left. */
    method LocalDone(task: Task, result: TaskResult, now: int)
      requires Valid() && task in running
      modifies this`running, store, queue`delayed
      ensures Valid() && View() == Lifecycle.LocalDone(old(View()), task, result, now)
      ensures Outcomes.RunEnded(old(View()), task, result, now, View())
      ensures queue.delayed == old(queue.delayed) + Requeued(task, result, now)
    {
      Outcomes.LocalDoneOutcome(View(), task, result, now);
      hide Lifecycle.CompleteTask;
      Lifecycle.LocalDoneKeepsWellFormed(View(), task, result, now);
      assert task.retryCount >= 0;
      hide Lifecycle.WellFormed;
      running := running - multiset{task};
      CompleteTask(task, result, now);
    }

    method HandleRemoteResult(uid: Uid, result: TaskResult, now: int)
      requires Valid()
      modifies this`pulled, store, queue`delayed
      ensures Valid() && View() == Lifecycle.RemoteReport(old(View()), uid, result, now)
      ensures if uid in old(store.rows) &&
                 (|| old(store.rows)[uid].status == Running
                  || (result.error.Some? && old(store.rows)[uid].retryCount < old(store.rows)[uid].maxRetries))
              then Outcomes.RunEnded(old(View()), old(store.rows)[uid], result, now, View())
              else store.rows == old(store.rows) && queue.Contents() == old(queue.Contents())
      ensures queue.delayed == old(queue.delayed) +
                if uid in old(store.rows) then Requeued(old(store.rows)[uid], result, now) else []
    {
      ghost var s0 := View();
      hide Lifecycle.WellFormed, Lifecycle.CompleteTask;
      RowsAreGood(s0);
      Lifecycle.RemoteReportKeepsWellFormed(s0, uid, result, now);
      var task := store.GetByUid(uid);
      if task.Err? { return; }
      assert task.value in store.rows.Values;
      pulled := pulled - multiset{uid};
      CompleteTask(task.value, result, now);
      assert View() == Lifecycle.RemoteReport(s0, uid, result, now);
      hide Lifecycle.RemoteReport;
      Outcomes.RemoteReportOutcome(s0, uid, result, now);
    }

    /** The channel receive of an agent's poll: hands out the oldest waiting task and takes
        exactly that one off the queue of the node. */
    method GetNextTaskForNode(node: NodeId) returns (r: Option<Task>)
      modifies this`nodeTasks, this`pulled
      ensures View() == Lifecycle.Pull(old(View()), node)
      ensures r.None? <==> node !in old(nodeTasks) || old(nodeTasks)[node] == []
      ensures r.None? ==> nodeTasks == old(nodeTasks) && pulled == old(pulled)
      ensures r.Some? ==>
                && node in nodeTasks && [r.value] + nodeTasks[node] == old(nodeTasks)[node]
                && nodeTasks == old(nodeTasks)[node := nodeTasks[node]]
                && pulled == old(pulled) + multiset{r.value.uid}
    {
      if node !in nodeTasks || nodeTasks[node] == [] { return None; }
      var task := nodeTasks[node][0];
      nodeTasks := nodeTasks[node := nodeTasks[node][1..]];
      pulled := pulled + multiset{task.uid};
      r := Some(task);
    }

    method GetOrCreateNodeQueue(node: NodeId) returns (waiting: seq<Task>)
      modifies this`nodeTasks
      ensures waiting == Lifecycle.NodeQueue(old(View()), node)
      ensures nodeTasks == old(nodeTasks)[node := waiting]
    {
      if node !in nodeTasks { nodeTasks := nodeTasks[node := []]; }
      waiting := nodeTasks[node];
    }

    /** Writes a row as Running. */
    method MarkStarted(run: Task)
      modifies this`started, store
      ensures View() == Lifecycle.MarkStarted(old(View()), run)
    {
      store.Update(run);
      started := started + multiset{run.uid};
    }

    method DispatchLocal(task: Task, now: int)
      modifies this`running, this`started, store
      ensures View() == Lifecycle.DispatchLocal(old(View()), task, now)
    {
      match task.TransitionTo(Running) {
        case Err => return;
        case Ok(r) =>
          var run := r.(startedAt := Some(now));
          MarkStarted(run);
          running := running + multiset{run};
      }
    }

    method DispatchRemote(task: Task, node: NodeId, now: int)
      modifies this`running, this`started, this`nodeTasks, store
      ensures View() == Lifecycle.DispatchRemote(old(View()), task, node, now)
    {
      hide Lifecycle.MarkStarted;
      match task.TransitionTo(Running) {
        case Err => return;
        case Ok(r) =>
          var run := r.(assignedNodeId := node, startedAt := Some(now));
          MarkStarted(run);
          var waiting := GetOrCreateNodeQueue(node);
          if |waiting| < Lifecycle.NODE_QUEUE_CAPACITY {
            nodeTasks := nodeTasks[node := waiting + [run]];
            assert nodeTasks == old(nodeTasks)[node := waiting][node := waiting + [run]];
            Lifecycle.OverwriteTwice(old(nodeTasks), node, waiting, waiting + [run]);
          } else {
            running := running + multiset{run};
          }
      }
    }

    /** A least used one of the nodes that are eligible for the task; None without a node
        manager, or when there is no such node. */
    method ChooseNode(task: Task) returns (node: Option<NodeId>)
      ensures nodeMgr == null ==> node == None
      ensures nodeMgr != null ==> IsChoice(nodeMgr.online, task, node)
    {
      var selected := SelectNode(nodeMgr, task);
      node := if selected.Err? || selected.value.None? then None else Some(selected.value.value.nodeId);
    }

    /** Dispatches a popped task, to the least used eligible node or locally. */
    method Dispatch(task: Task, now: int) returns (ghost node: Option<NodeId>)
      modifies this`running, this`started, this`nodeTasks, store
      ensures View() == Lifecycle.Dispatch(old(View()), task, node, now)
      ensures nodeMgr == null ==> node == None
      ensures nodeMgr != null ==> IsChoice(nodeMgr.online, task, node)
    {
      hide Lifecycle.DispatchLocal, Lifecycle.DispatchRemote, IsChoice;
      var t := task;
      if t.status == Created {
        t := t.(status := Pending);
        assert task.TransitionTo(Pending) == Ok(t);
        store.Update(t);
      }
      if nodeMgr != null { SameChoice(nodeMgr.online, task, t); }
      var chosen := ChooseNode(t);
      node := chosen;
      match chosen {
        case None => DispatchLocal(t, now);
        case Some(n) => DispatchRemote(t, n, now);
      }
    }

    /** The sweep of a tick over the running tasks: adds up what they use and fails the
        ones past their deadline. */
    method Sweep(snapshot: seq<Task>, now: int) returns (cpu: int, mem: int)
      requires queue.Valid() && forall t :: t in snapshot ==> t.retryCount >= 0
      modifies store, queue`delayed
      ensures queue.Valid() && View() == Lifecycle.FailTimedOut(old(View()), snapshot, now)
      ensures cpu == Lifecycle.CpuOf(snapshot) && mem == Lifecycle.MemOf(snapshot)
    {
      cpu, mem := 0, 0;
      assert snapshot[0..] == snapshot;
      for i := 0 to |snapshot|
        invariant queue.Valid()
        invariant Lifecycle.FailTimedOut(old(View()), snapshot, now)
                  == Lifecycle.FailTimedOut(View(), snapshot[i..], now)
        invariant cpu + Lifecycle.CpuOf(snapshot[i..]) == Lifecycle.CpuOf(snapshot)
        invariant mem + Lifecycle.MemOf(snapshot[i..]) == Lifecycle.MemOf(snapshot)
      {
        assert snapshot[i..][1..] == snapshot[i + 1..];
        cpu := cpu + snapshot[i].cpuLimit;
        mem := mem + snapshot[i].memoryLimit;
        if Lifecycle.TimedOut(snapshot[i], now) {
          FailTask(snapshot[i], TIMED_OUT, now);
        }
      }
    }

    /** Dispatches a popped task if it fits into the budget, else puts it off for a second. */
    method Place(task: Task, b: Lifecycle.Budget, now: int) returns (left: Lifecycle.Budget, ghost node: Option<NodeId>)
      requires queue.Valid() && tick == Some(b)
      modifies this, store, queue
      ensures queue.Valid() && View() == Lifecycle.TickPlace(old(View()), task, node, now) && tick == Some(left)
      ensures var fits := (task.cpuLimit <= 0 || task.cpuLimit <= b.cpu) &&
                          (task.memoryLimit <= 0 || task.memoryLimit <= b.mem);
              && queue.delayed == old(queue.delayed) +
                   (if fits then [] else [DelayedItem(task, now + 1_000_000_000)])
              && left == if fits then Lifecycle.Budget(b.cpu - task.cpuLimit, b.mem - task.memoryLimit, b.slots - 1)
                         else b
    {
      hide Lifecycle.Dispatch, IsChoice;
      node := None;
      left := b;
      if Lifecycle.CanAllocate(task, b.cpu, b.mem) {
        node := Dispatch(task, now);
        left := Lifecycle.Budget(b.cpu - task.cpuLimit, b.mem - task.memoryLimit, b.slots - 1);
        tick := Some(left);
      } else {
        queue.PushDelayed(task, SECOND, now);
      }
    }

    /** One iteration of the dispatch loop. */
    method PopAndPlace(b: Lifecycle.Budget, now: int)
      returns (popped: Option<Task>, left: Lifecycle.Budget, ghost node: Option<NodeId>)
      requires queue.Valid() && tick == Some(b)
      modifies this, store, queue
      ensures queue.Valid() && tick == Some(left)
      ensures popped.None? ==> TaskQueue.NothingReady(queue.Contents()) && View() == old(View())
      ensures popped.Some? ==>
                && TaskQueue.CanPop(old(queue.Contents()), popped.value)
                && View() == Lifecycle.TickPop(old(View()), popped.value, node, now)
    {
      node := None;
      left := b;
      popped := queue.PopInternal();
      if popped.Some? {
        left, node := Place(popped.value, b, now);
      }
    }

    /** The dispatch loop of a tick: pops until no slot is left or nothing is ready. */
    method DispatchLoop(b: Lifecycle.Budget, clock: nat -> int)
      returns (ghost es: seq<Lifecycle.Event>, ghost order: seq<Task>)
      requires queue.Valid() && tick == Some(b)
      modifies this, store, queue
      ensures queue.Valid()
      ensures Lifecycle.ValidRun(config, old(View()), es) && View() == Lifecycle.Run(config, old(View()), es)
      ensures Progress(View(), old(queue.Contents()), order, b) && tick == Some(Greedy(order, b).left)
      ensures Greedy(order, b).left.slots <= 0 || TaskQueue.NothingReady(queue.Contents())
    {
      ghost var s0 := View();
      var left, k := b, 0;
      es, order := [], [];
      while left.slots > 0
        invariant queue.Valid() && tick == Some(left)
        invariant Lifecycle.ValidRun(config, s0, es) && View() == Lifecycle.Run(config, s0, es)
        invariant Progress(View(), s0.queue, order, b)
        decreases |TaskQueue.Ready(queue.Contents())|
      {
        ghost var s := View();
        var popped, left', node := PopAndPlace(left, clock(k));
        if popped.None? { break; }
        ghost var e := Lifecycle.ETickPop(popped.value, node, clock(k));
        ProgressStep(s, s0.queue, order, b, popped.value, node, clock(k));
        RunSnoc(config, s0, es, e);
        ReadyShrinks(s, popped.value, node, clock(k));
        es, order := es + [e], order + [popped.value];
        left, k := left', k + 1;
      }
    }

    /** Reads the running rows; none of them has a negative retry count. */
    method ReadRunning() returns (found: seq<Task>)
      requires Valid()
      ensures Lifecycle.IsSnapshot(store.rows, found)
      ensures forall t :: t in found ==> t.retryCount >= 0
    {
      RowsAreGood(View());
      hide Lifecycle.WellFormed;
      found := store.GetRunningTasks();
      assert forall t :: t in found ==> t in store.rows.Values;
    }

    /** The first half of a tick: the budget that is free, after failing the running
        tasks that are past their deadline. */
    method BeginTick(now: int) returns (b: Lifecycle.Budget, ghost snapshot: seq<Task>)
      requires Valid() && tick == None
      modifies this`tick, store, queue`delayed
      ensures queue.Valid() && Lifecycle.IsSnapshot(old(store.rows), snapshot)
      ensures View() == Lifecycle.TickBegin(config, old(View()), snapshot, now)
      ensures b == FreeAt(config, snapshot) && tick == if b.slots <= 0 then None else Some(b)
      ensures Due(queue.Contents()) == Due(old(queue.Contents()))
    {
      hide Lifecycle.WellFormed, Lifecycle.FailTimedOut, Lifecycle.CpuOf, Lifecycle.MemOf, Lifecycle.IsSnapshot, Due;
      var found := ReadRunning();
      snapshot := found;
      SweepKeepsDue(View(), snapshot, now);
      var cpu, mem := Sweep(found, now);
      b := Lifecycle.Budget(config.totalCpu - cpu, config.totalMem - mem, config.maxConcurrent - |found|);
      if b.slots > 0 { tick := Some(b); }
    }

    /** One scheduling cycle, alone: it is a run of the lifecycle machine that begins a
        tick, pops `order` one by one and ends it.  `clock` gives the time of each pop. */
    method Tick(now: int, clock: nat -> int)
      returns (ghost es: seq<Lifecycle.Event>, ghost snapshot: seq<Task>, ghost order: seq<Task>,
              ghost left: Lifecycle.Budget)
      requires Valid() && tick == None
      modifies this, store, queue
      ensures Valid() && tick == None && Lifecycle.IsSnapshot(old(store.rows), snapshot)
      ensures Lifecycle.ValidRun(config, old(View()), es) && View() == Lifecycle.Run(config, old(View()), es)
      ensures left == Greedy(order, FreeAt(config, snapshot)).left
      ensures Progress(View().(tick := Some(left)), old(queue.Contents()), order, FreeAt(config, snapshot))
      ensures left.slots <= 0 || TaskQueue.NothingReady(queue.Contents())
      ensures FreeAt(config, snapshot).slots <= 0 ==> order == []
    {
      hide Lifecycle.WellFormed, Lifecycle.Run, Lifecycle.ValidRun, Lifecycle.TickBegin, Lifecycle.IsSnapshot;
      hide Progress, Greedy, Due;
      ghost var s0 := View();
      var b;
      b, snapshot := BeginTick(now);
      ghost var s1 := View();
      es, order, left := [Lifecycle.ETickBegin(snapshot, now)], [], b;
      RunBegin(config, s0, snapshot, now);
      ProgressStart(s1.(tick := Some(b)), s0.queue, b);
      if b.slots > 0 {
        ghost var looped;
        looped, order := DispatchLoop(b, clock);
        left := Greedy(order, b).left;
        ProgressSince(View(), s0.queue, s1.queue, order, b);
        FinishTick(config, s0, es, looped);
        es := es + looped + [Lifecycle.ETickEnd];
        tick := None;
      }
      Lifecycle.RunKeepsWellFormed(config, s0, es);
    }
  }

  /** What a failing run with retries left puts into the delayed list: the requeued copy, due
      after the backoff. */
  ghost function Requeued(t: Task, r: TaskResult, now: int): seq<DelayedItem>
    requires t.retryCount >= 0
  {
    if r.error.None? || t.retryCount >= t.maxRetries then []
    else
      var again := t.(status := Pending, retryCount := t.retryCount + 1, stdout := r.stdout, stderr := r.stderr,
                      finishedAt := None, errorMessage := if r.timedOut then "task timed out" else r.error.value);
      [DelayedItem(again, now + Backoff.RetryDelay(t.retryIntervalSec, t.retryCount + 1))]
  }

  lemma RowsAreGood(s: Lifecycle.State)
    requires Lifecycle.WellFormed(s)
    ensures forall t :: t in s.rows.Values ==> t.retryCount >= 0
    ensures forall u :: u in s.rows ==> s.rows[u].uid == u
  {
  }

  /** What is free before a tick dispatches anything. */
  function FreeAt(c: Lifecycle.Config, snapshot: seq<Task>): Lifecycle.Budget {
    Lifecycle.Budget(c.totalCpu - Lifecycle.CpuOf(snapshot), c.totalMem - Lifecycle.MemOf(snapshot),
        c.maxConcurrent - |snapshot|)
  }

  lemma FinishTick(c: Lifecycle.Config, s: Lifecycle.State, es: seq<Lifecycle.Event>, fs: seq<Lifecycle.Event>)
    requires Lifecycle.ValidRun(c, s, es) && Lifecycle.ValidRun(c, Lifecycle.Run(c, s, es), fs)
    requires Lifecycle.Run(c, Lifecycle.Run(c, s, es), fs).tick.Some?
    ensures Lifecycle.ValidRun(c, s, es + fs + [Lifecycle.ETickEnd])
    ensures Lifecycle.Run(c, s, es + fs + [Lifecycle.ETickEnd])
         == Lifecycle.Run(c, Lifecycle.Run(c, s, es), fs).(tick := None)
  {
    Lifecycle.RunConcat(c, s, es, fs);
    RunSnoc(c, s, es + fs, Lifecycle.ETickEnd);
  }

  lemma ReadyShrinks(s: Lifecycle.State, t: Task, node: Option<NodeId>, now: int)
    requires s.tick.Some? && TaskQueue.CanPop(s.queue, t)
    ensures |TaskQueue.Ready(Lifecycle.TickPop(s, t, node, now).queue)| < |TaskQueue.Ready(s.queue)|
  {
    TickPopQueue(s, t, node, now);
    TaskQueue.PopCopies(s.queue, t);
    PopsSeeOnlyDue(s.queue, t);
    ReadyOfDue(s.queue);
    ReadyOfDue(Lifecycle.TickPop(s, t, node, now).queue);
    TaskQueue.PopCopies(Due(s.queue), t);
  }

  lemma ReadyOfDue(q: TaskQueue.Queue)
    ensures TaskQueue.Ready(Due(q)) == TaskQueue.Ready(q)
  {
  }

  lemma RunSingle(c: Lifecycle.Config, s: Lifecycle.State, e: Lifecycle.Event)
    requires Lifecycle.Enabled(s, e)
    ensures Lifecycle.ValidRun(c, s, [e]) && Lifecycle.Run(c, s, [e]) == Lifecycle.Apply(c, s, e)
  {
  }

  lemma RunBegin(c: Lifecycle.Config, s: Lifecycle.State, snapshot: seq<Task>, now: int)
    requires s.tick.None? && Lifecycle.IsSnapshot(s.rows, snapshot)
    ensures Lifecycle.ValidRun(c, s, [Lifecycle.ETickBegin(snapshot, now)])
    ensures Lifecycle.Run(c, s, [Lifecycle.ETickBegin(snapshot, now)]) == Lifecycle.TickBegin(c, s, snapshot, now)
  {
  }

  lemma RunSnoc(c: Lifecycle.Config, s: Lifecycle.State, es: seq<Lifecycle.Event>, e: Lifecycle.Event)
    requires Lifecycle.ValidRun(c, s, es) && Lifecycle.Enabled(Lifecycle.Run(c, s, es), e)
    ensures Lifecycle.ValidRun(c, s, es + [e])
    ensures Lifecycle.Run(c, s, es + [e]) == Lifecycle.Apply(c, Lifecycle.Run(c, s, es), e)
  {
    RunSingle(c, Lifecycle.Run(c, s, es), e);
    Lifecycle.RunConcat(c, s, es, [e]);
  }
}
