/** What one tick does with the tasks it pops (internal/scheduler/scheduler.go, tick):
    greedy first fit in pop order. */
module FirstFit {
  import opened Tasks
  import opened Lifecycle
  import opened TaskQueue

  /** The tasks that were dispatched, those that were put off, and what is left. */
  datatype Outcome = Outcome(attempted: seq<Task>, deferred: seq<Task>, left: Budget)

  function Pay(b: Budget, t: Task): Budget {
    if CanAllocate(t, b.cpu, b.mem) then Budget(b.cpu - t.cpuLimit, b.mem - t.memoryLimit, b.slots - 1) else b
  }

  function Place(o: Outcome, t: Task): Outcome {
    if CanAllocate(t, o.left.cpu, o.left.mem) then Outcome(o.attempted + [t], o.deferred, Pay(o.left, t))
    else o.(deferred := o.deferred + [t])
  }

  function Greedy(order: seq<Task>, b: Budget): Outcome
    decreases |order|
  {
    if order == [] then Outcome([], [], b) else Place(Greedy(order[..|order| - 1], b), order[|order| - 1])
  }

  lemma GreedyStep(order: seq<Task>, t: Task, b: Budget)
    ensures Greedy(order + [t], b) == Place(Greedy(order, b), t)
  {
  }

  lemma {:induction false} GreedyPartitions(order: seq<Task>, b: Budget)
    ensures var o := Greedy(order, b); multiset(o.attempted) + multiset(o.deferred) == multiset(order)
    decreases |order|
  {
    if order != [] {
      var front, t := order[..|order| - 1], order[|order| - 1];
      assert order == front + [t];
      GreedyPartitions(front, b);
    }
  }

  lemma {:induction false} SumsAppend(ts: seq<Task>, t: Task)
    ensures CpuOf(ts + [t]) == CpuOf(ts) + t.cpuLimit && MemOf(ts + [t]) == MemOf(ts) + t.memoryLimit
    decreases |ts|
  {
    if ts == [] {
      assert ts + [t] == [t] && [t][1..] == [];
    } else {
      assert (ts + [t])[1..] == ts[1..] + [t];
      SumsAppend(ts[1..], t);
    }
  }

  /** The budget pays for exactly the dispatched tasks. */
  lemma {:induction false} GreedyPays(order: seq<Task>, b: Budget)
    ensures var o := Greedy(order, b);
            && o.left.cpu == b.cpu - CpuOf(o.attempted)
            && o.left.mem == b.mem - MemOf(o.attempted)
            && o.left.slots == b.slots - |o.attempted|
    decreases |order|
  {
    if order != [] {
      var front, t := order[..|order| - 1], order[|order| - 1];
      GreedyPays(front, b);
      SumsAppend(Greedy(front, b).attempted, t);
    }
  }

  /** A task is dispatched exactly when it fits into what the tasks dispatched before it
      have left, and decisions are never revised. */
  lemma {:induction false} GreedyDecidesOnce(order: seq<Task>, b: Budget, k: nat)
    requires k < |order|
    ensures var before := Greedy(order[..k], b).attempted;
            var fits := (order[k].cpuLimit <= 0 || order[k].cpuLimit <= b.cpu - CpuOf(before)) &&
                        (order[k].memoryLimit <= 0 || order[k].memoryLimit <= b.mem - MemOf(before));
            && (fits ==> before + [order[k]] <= Greedy(order, b).attempted)
            && (!fits ==> before <= Greedy(order, b).attempted
                          && Greedy(order[..k], b).deferred + [order[k]] <= Greedy(order, b).deferred)
    decreases |order|
  {
    var front := order[..|order| - 1];
    if k == |order| - 1 {
      GreedyPays(front, b);
    } else {
      assert front[..k] == order[..k];
      GreedyDecidesOnce(front, b, k);
    }
  }

  /** First fit: no task that was put off fits into what is left at the end, so none
      could have been dispatched as well. */
  lemma {:induction false} GreedyIsFirstFit(order: seq<Task>, b: Budget)
    requires forall t :: t in order ==> t.cpuLimit >= 0 && t.memoryLimit >= 0
    ensures var o := Greedy(order, b);
            && o.left.cpu <= b.cpu && o.left.mem <= b.mem
            && (forall t :: t in o.attempted || t in o.deferred ==> t in order)
            && forall t :: t in o.deferred ==> !CanAllocate(t, o.left.cpu, o.left.mem)
    decreases |order|
  {
    if order != [] {
      var front, t := order[..|order| - 1], order[|order| - 1];
      assert forall x :: x in front ==> x in order;
      GreedyIsFirstFit(front, b);
    }
  }

  /** Appending one more pop to a sequence of pops. */
  lemma {:induction false} PopsAppend(q: TaskQueue.Queue, ts: seq<Task>, t: Task)
    requires TaskQueue.Pops(q, ts) && TaskQueue.CanPop(TaskQueue.AfterPops(q, ts), t)
    ensures TaskQueue.Pops(q, ts + [t])
    ensures TaskQueue.AfterPops(q, ts + [t]) == TaskQueue.AfterPop(TaskQueue.AfterPops(q, ts), t)
    decreases |ts|
  {
    if ts == [] {
      assert ts + [t] == [t] && [t][1..] == [];
    } else {
      assert (ts + [t])[1..] == ts[1..] + [t] && (ts + [t])[0] == ts[0];
      PopsAppend(TaskQueue.AfterPop(q, ts[0]), ts[1..], t);
    }
  }

  /** A queue without its delayed tasks: the part that pops look at. */
  function Due(q: TaskQueue.Queue): TaskQueue.Queue {
    q.(delayed := multiset{})
  }

  lemma PopsSeeOnlyDue(q: TaskQueue.Queue, t: Task)
    ensures TaskQueue.CanPop(q, t) <==> TaskQueue.CanPop(Due(q), t)
    ensures Due(TaskQueue.AfterPop(q, t)) == TaskQueue.AfterPop(Due(q), t)
    ensures Due(TaskQueue.PushDelayed(q, t)) == Due(q)
  {
  }

  lemma {:induction false} SweepKeepsDue(s: State, snapshot: seq<Task>, now: int)
    ensures Due(FailTimedOut(s, snapshot, now).queue) == Due(s.queue)
    decreases |snapshot|
  {
    if snapshot != [] {
      var next := if TimedOut(snapshot[0], now) then FailTask(s, snapshot[0], TIMED_OUT, now) else s;
      SweepKeepsDue(next, snapshot[1..], now);
    }
  }

  lemma DispatchKeepsQueue(s: State, t: Task, node: Option<NodeId>, now: int)
    ensures Dispatch(s, t, node, now).queue == s.queue
  {
  }

  /** What one iteration of the loop does to the budget and to the queue. */
  lemma TickPopPays(s: State, t: Task, node: Option<NodeId>, now: int)
    requires s.tick.Some?
    ensures TickPop(s, t, node, now).tick == Some(Pay(s.tick.value, t))
  {
  }

  lemma TickPopQueue(s: State, t: Task, node: Option<NodeId>, now: int)
    requires s.tick.Some?
    ensures Due(TickPop(s, t, node, now).queue) == AfterPop(Due(s.queue), t)
  {
    var popped := s.(queue := AfterPop(s.queue, t));
    DispatchKeepsQueue(popped, t, node, now);
    PopsSeeOnlyDue(s.queue, t);
    PopsSeeOnlyDue(popped.queue, t);
  }

  /** The loop so far: `order` was popped from `q`, and the budget is what greedy first
      fit leaves of `b`. */
  ghost predicate Progress(s: State, q: TaskQueue.Queue, order: seq<Task>, b: Budget) {
    && TaskQueue.Pops(Due(q), order) && TaskQueue.AfterPops(Due(q), order) == Due(s.queue)
    && s.tick == Some(Greedy(order, b).left)
  }

  lemma ProgressStart(s: State, q: TaskQueue.Queue, b: Budget)
    requires Due(s.queue) == Due(q) && s.tick == Some(b)
    ensures Progress(s, q, [], b) && Greedy([], b).left == b
  {
  }

  /** Progress does not depend on when the delayed tasks are looked at. */
  lemma ProgressSince(s: State, q0: TaskQueue.Queue, q1: TaskQueue.Queue, order: seq<Task>, b: Budget)
    requires Due(q0) == Due(q1) && Progress(s, q1, order, b)
    ensures Progress(s, q0, order, b)
  {
  }

  lemma ProgressStep(s: State, q: TaskQueue.Queue, order: seq<Task>, b: Budget, t: Task, node: Option<NodeId>, now: int)
    requires Progress(s, q, order, b) && CanPop(s.queue, t)
    ensures Progress(TickPop(s, t, node, now), q, order + [t], b)
  {
    TickPopPays(s, t, node, now);
    TickPopQueue(s, t, node, now);
    PopsSeeOnlyDue(s.queue, t);
    PopsAppend(Due(q), order, t);
    GreedyStep(order, t, b);
  }

  lemma TickPartitions(s: State, q: TaskQueue.Queue, order: seq<Task>, b: Budget)
    requires Progress(s, q, order, b)
    ensures var o := Greedy(order, b);
            TaskQueue.Ready(q) == multiset(o.attempted) + multiset(o.deferred) + TaskQueue.Ready(s.queue)
  {
    TaskQueue.PopsConserve(Due(q), order);
    GreedyPartitions(order, b);
  }

  lemma PoppedWasReady(q: TaskQueue.Queue, order: seq<Task>, t: Task)
    requires TaskQueue.Pops(q, order) && t in order
    ensures t in TaskQueue.Ready(q)
  {
    TaskQueue.PopsConserve(q, order);
    assert t in multiset(order);
  }

  /** Main result: nothing that was put off fits into what is left when the loop ends. */
  lemma NothingDeferredFits(s: State, q: TaskQueue.Queue, order: seq<Task>, b: Budget)
    requires Progress(s, q, order, b)
    requires forall t :: t in TaskQueue.Ready(q) ==> t.cpuLimit >= 0 && t.memoryLimit >= 0
    ensures forall t :: t in Greedy(order, b).deferred ==>
              t.cpuLimit > s.tick.value.cpu || t.memoryLimit > s.tick.value.mem
  {
    forall t | t in order ensures t.cpuLimit >= 0 && t.memoryLimit >= 0 {
      PoppedWasReady(Due(q), order, t);
      assert TaskQueue.Ready(Due(q)) == TaskQueue.Ready(q);
    }
    GreedyIsFirstFit(order, b);
  }

  /** Main result: the pops took the priority bag first, highest first, then the ready
      list, oldest first. */
  lemma TickPopsInOrder(s: State, q: TaskQueue.Queue, order: seq<Task>, b: Budget)
    requires Progress(s, q, order, b)
    ensures forall i, j :: 0 <= i < j < |order| && j < |q.prio| ==> order[i].priority >= order[j].priority
    ensures forall j :: |q.prio| <= j < |order| ==> j - |q.prio| < |q.ready| && order[j] == q.ready[j - |q.prio|]
  {
    forall i, j | 0 <= i < j < |order| && j < |q.prio| ensures order[i].priority >= order[j].priority {
      TaskQueue.BagPopsDescend(Due(q), order, i, j);
    }
    forall j | |q.prio| <= j < |order| ensures j - |q.prio| < |q.ready| && order[j] == q.ready[j - |q.prio|] {
      TaskQueue.ThenOldestFirst(Due(q), order, j);
    }
  }
}
