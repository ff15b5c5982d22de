/** The abstract task queue (internal/queue/queue.go) that both queue
    implementations refine: a bag of prioritised tasks, a first-in first-out list
    of ready tasks, and a bag of tasks that are not due yet. */
module TaskQueue {
  import opened Tasks
  import opened Sums

  datatype Queue = Queue(prio: multiset<Task>, ready: seq<Task>, delayed: multiset<Task>)

  const EMPTY := Queue(multiset{}, [], multiset{})

  /** Every copy the queue holds. */
  function Copies(q: Queue): multiset<Task> {
    q.prio + multiset(q.ready) + q.delayed
  }

  /** The copies a pop could return without waiting. */
  function Ready(q: Queue): multiset<Task> {
    q.prio + multiset(q.ready)
  }

  predicate NothingReady(q: Queue) {
    q.prio == multiset{} && q.ready == []
  }

  /** `t` is a legal answer of pop: a task of highest priority when the bag holds
      any, otherwise the oldest ready task. */
  ghost predicate CanPop(q: Queue, t: Task) {
    if q.prio != multiset{} then
      t in q.prio && forall x :: x in q.prio ==> x.priority <= t.priority
    else
      q.ready != [] && t == q.ready[0]
  }

  function AfterPop(q: Queue, t: Task): Queue {
    if q.prio != multiset{} then q.(prio := q.prio - multiset{t})
    else if q.ready != [] then q.(ready := q.ready[1..])
    else q
  }

  function Push(q: Queue, t: Task): Queue {
    q.(ready := q.ready + [t])
  }

  function PushPriority(q: Queue, t: Task): Queue {
    q.(prio := q.prio + multiset{t})
  }

  function PushDelayed(q: Queue, t: Task): Queue {
    q.(delayed := q.delayed + multiset{t})
  }

  /** Delayed tasks that came due join the ready list, in the given order. */
  function Release(q: Queue, moved: seq<Task>): Queue {
    q.(ready := q.ready + moved, delayed := q.delayed - multiset(moved))
  }

  lemma PopCopies(q: Queue, t: Task)
    requires CanPop(q, t)
    ensures t in Copies(q) && t in Ready(q)
    ensures Copies(AfterPop(q, t)) == Copies(q) - multiset{t}
    ensures Ready(AfterPop(q, t)) == Ready(q) - multiset{t}
    ensures AfterPop(q, t).delayed == q.delayed
  {
    if q.prio == multiset{} {
      HeadIsRemoved(q.ready);
      UnionRemoveRight(q.delayed, multiset(q.ready), t);
    } else {
      UnionRemoveRight(multiset(q.ready), q.prio, t);
      UnionRemoveRight(multiset(q.ready) + q.delayed, q.prio, t);
    }
  }

  lemma PushCopies(q: Queue, t: Task)
    ensures Copies(Push(q, t)) == Copies(q) + multiset{t}
    ensures Copies(PushPriority(q, t)) == Copies(q) + multiset{t}
    ensures Copies(PushDelayed(q, t)) == Copies(q) + multiset{t}
    ensures Ready(PushDelayed(q, t)) == Ready(q)
  {
  }

  lemma ReleaseCopies(q: Queue, moved: seq<Task>)
    requires multiset(moved) <= q.delayed
    ensures Copies(Release(q, moved)) == Copies(q)
  {
  }

  /** `ts` can be popped from `q` one after the other, with nothing pushed in between. */
  ghost predicate Pops(q: Queue, ts: seq<Task>)
    decreases |ts|
  {
    ts == [] || (CanPop(q, ts[0]) && Pops(AfterPop(q, ts[0]), ts[1..]))
  }

  function AfterPops(q: Queue, ts: seq<Task>): Queue
    decreases |ts|
  {
    if ts == [] then q else AfterPops(AfterPop(q, ts[0]), ts[1..])
  }

  lemma BagShrinksByOne(q: Queue, t: Task)
    requires CanPop(q, t)
    ensures q.prio != multiset{} ==> |AfterPop(q, t).prio| == |q.prio| - 1 && AfterPop(q, t).ready == q.ready
    ensures q.prio == multiset{} ==> AfterPop(q, t).prio == multiset{} && AfterPop(q, t).ready == q.ready[1..]
  {
  }

  lemma {:induction false} PopsShrinkBag(q: Queue, ts: seq<Task>)
    requires Pops(q, ts)
    ensures AfterPops(q, ts).prio <= q.prio && AfterPops(q, ts).delayed == q.delayed
    decreases |ts|
  {
    if ts != [] {
      PopsShrinkBag(AfterPop(q, ts[0]), ts[1..]);
    }
  }

  lemma {:induction false} PopsConserve(q: Queue, ts: seq<Task>)
    requires Pops(q, ts)
    ensures Ready(AfterPops(q, ts)) + multiset(ts) == Ready(q)
    decreases |ts|
  {
    if ts != [] {
      PopCopies(q, ts[0]);
      PopsConserve(AfterPop(q, ts[0]), ts[1..]);
      HeadIsRemoved(ts);
      BothLack(Ready(AfterPops(q, ts)), multiset(ts), Ready(q), ts[0]);
    }
  }

  /** The first pops come from the priority bag, as many as it holds. */
  lemma {:induction false} FirstFromBag(q: Queue, ts: seq<Task>, j: nat)
    requires Pops(q, ts) && j < |ts| && j < |q.prio|
    ensures ts[j] in q.prio
    decreases |ts|
  {
    BagShrinksByOne(q, ts[0]);
    if j > 0 {
      FirstFromBag(AfterPop(q, ts[0]), ts[1..], j - 1);
    }
  }

  lemma {:induction false} BagPopsDescend(q: Queue, ts: seq<Task>, i: nat, j: nat)
    requires Pops(q, ts) && i < j < |ts| && j < |q.prio|
    ensures ts[i].priority >= ts[j].priority
    decreases |ts|
  {
    BagShrinksByOne(q, ts[0]);
    if i == 0 {
      FirstFromBag(q, ts, j);
    } else {
      BagPopsDescend(AfterPop(q, ts[0]), ts[1..], i - 1, j - 1);
    }
  }

  lemma {:induction false} NoneHigherLeft(q: Queue, ts: seq<Task>, i: nat, x: Task)
    requires Pops(q, ts) && i < |ts| && i < |q.prio| && x in AfterPops(q, ts).prio
    ensures ts[i].priority >= x.priority
    decreases |ts|
  {
    BagShrinksByOne(q, ts[0]);
    if i == 0 {
      PopsShrinkBag(q, ts);
    } else {
      NoneHigherLeft(AfterPop(q, ts[0]), ts[1..], i - 1, x);
    }
  }

  lemma {:induction false} ThenOldestFirst(q: Queue, ts: seq<Task>, j: nat)
    requires Pops(q, ts) && |q.prio| <= j < |ts|
    ensures j - |q.prio| < |q.ready| && ts[j] == q.ready[j - |q.prio|]
    decreases |ts|
  {
    BagShrinksByOne(q, ts[0]);
    if j > 0 {
      ThenOldestFirst(AfterPop(q, ts[0]), ts[1..], j - 1);
    }
  }

  /** The first pops are together exactly the priority bag. */
  lemma {:induction false} BagEmptiesFirst(q: Queue, ts: seq<Task>)
    requires Pops(q, ts) && |q.prio| <= |ts|
    ensures multiset(ts[..|q.prio|]) == q.prio
    decreases |ts|
  {
    if q.prio != multiset{} {
      BagShrinksByOne(q, ts[0]);
      BagEmptiesFirst(AfterPop(q, ts[0]), ts[1..]);
      HeadAndRest(ts, q.prio);
    } else {
      assert ts[..0] == [];
    }
  }

  lemma HeadAndRest(ts: seq<Task>, bag: multiset<Task>)
    requires ts != [] && ts[0] in bag && |bag| <= |ts| && multiset(ts[1..][..|bag| - 1]) == bag - multiset{ts[0]}
    ensures multiset(ts[..|bag|]) == bag
  {
    assert ts[..|bag|] == [ts[0]] + ts[1..][..|bag| - 1];
  }

  /** Main result about order: consecutive pops first empty the priority bag, with
      priorities that never rise and no higher one left behind, and then serve the
      ready list oldest first.  Nothing is popped twice or lost. */
  lemma PopOrder(q: Queue, ts: seq<Task>)
    requires Pops(q, ts)
    ensures forall i, j :: 0 <= i < j < |ts| && j < |q.prio| ==> ts[i].priority >= ts[j].priority
    ensures forall i, x :: 0 <= i < |ts| && i < |q.prio| && x in AfterPops(q, ts).prio ==> ts[i].priority >= x.priority
    ensures forall j :: |q.prio| <= j < |ts| ==> j - |q.prio| < |q.ready| && ts[j] == q.ready[j - |q.prio|]
    ensures Ready(AfterPops(q, ts)) + multiset(ts) == Ready(q)
    ensures AfterPops(q, ts).delayed == q.delayed
  {
    PopsConserve(q, ts);
    PopsShrinkBag(q, ts);
    forall i, j | 0 <= i < j < |ts| && j < |q.prio| ensures ts[i].priority >= ts[j].priority {
      BagPopsDescend(q, ts, i, j);
    }
    forall i, x | 0 <= i < |ts| && i < |q.prio| && x in AfterPops(q, ts).prio ensures ts[i].priority >= x.priority {
      NoneHigherLeft(q, ts, i, x);
    }
    forall j | |q.prio| <= j < |ts| ensures j - |q.prio| < |q.ready| && ts[j] == q.ready[j - |q.prio|] {
      ThenOldestFirst(q, ts, j);
    }
  }
}
