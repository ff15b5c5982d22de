/** The in-memory queue (internal/queue/inmem.go): a binary heap on priority, a
    first-in first-out list, and a list of delayed tasks.  Every method is proved
    against the abstract queue of TaskQueue. */
module InMemQueues {
  import opened Sums
  import opened Tasks
  import TaskQueue

  // ----- The heap that container/heap maintains over Less, Swap, Push and Pop -----

  function Parent(i: nat): nat
    requires i > 0
  {
    (i - 1) / 2
  }

  /** The first `n` entries form a heap with the highest priority at the root. */
  ghost predicate IsHeap(s: seq<Task>, n: nat)
    requires n <= |s|
  {
    forall i :: 0 < i < n ==> s[Parent(i)].priority >= s[i].priority
  }

  lemma {:induction false} RootIsMax(s: seq<Task>, n: nat, i: nat)
    requires i < n <= |s| && IsHeap(s, n)
    ensures s[0].priority >= s[i].priority
    decreases i
  {
    if i > 0 { RootIsMax(s, n, Parent(i)); }
  }

  lemma RootIsMaxOfAll(s: seq<Task>)
    requires s != [] && IsHeap(s, |s|)
    ensures s[0] in multiset(s) && forall x :: x in multiset(s) ==> x.priority <= s[0].priority
  {
    forall x | x in multiset(s) ensures x.priority <= s[0].priority {
      var i :| 0 <= i < |s| && s[i] == x;
      RootIsMax(s, |s|, i);
    }
  }

  function Swapped<T>(s: seq<T>, i: nat, j: nat): (r: seq<T>)
    requires i < |s| && j < |s|
    ensures |r| == |s| && r[i] == s[j] && r[j] == s[i]
    ensures forall k :: 0 <= k < |s| && k != i && k != j ==> r[k] == s[k]
    ensures multiset(r) == multiset(s)
  {
    s[i := s[j]][j := s[i]]
  }

  /** A heap but for entry `j`, which may be larger than its parent. */
  ghost predicate RisingAt(s: seq<Task>, j: nat)
    requires j < |s|
  {
    && (forall i :: 0 < i < |s| && i != j ==> s[Parent(i)].priority >= s[i].priority)
    && (forall i :: 0 < i < |s| && j > 0 && Parent(i) == j ==> s[Parent(j)].priority >= s[i].priority)
  }

  lemma RiseOnce(s: seq<Task>, j: nat)
    requires 0 < j < |s| && RisingAt(s, j) && s[j].priority > s[Parent(j)].priority
    ensures RisingAt(Swapped(s, Parent(j), j), Parent(j))
  {
  }

  lemma RisenIsHeap(s: seq<Task>, j: nat)
    requires j < |s| && RisingAt(s, j) && (j == 0 || s[j].priority <= s[Parent(j)].priority)
    ensures IsHeap(s, |s|)
  {
  }

  /** A heap of the first `n` entries but for entry `i`, which may be smaller than its children. */
  ghost predicate SinkingAt(s: seq<Task>, n: nat, i: nat)
    requires n <= |s|
  {
    && (forall k :: 0 < k < n && Parent(k) != i ==> s[Parent(k)].priority >= s[k].priority)
    && (forall k :: 0 < k < n && 0 < i < n && Parent(k) == i ==> s[Parent(i)].priority >= s[k].priority)
  }

  lemma SwappedRootSinks(s: seq<Task>)
    requires s != [] && IsHeap(s, |s|)
    ensures SinkingAt(Swapped(s, 0, |s| - 1), |s| - 1, 0)
  {
  }

  /** `j` is a child of `i` that no other child of `i` exceeds. */
  ghost predicate LargestChild(s: seq<Task>, n: nat, i: nat, j: nat)
    requires n <= |s|
  {
    0 < j < n && Parent(j) == i && forall k :: 0 < k < n && Parent(k) == i ==> s[j].priority >= s[k].priority
  }

  lemma SinkOnce(s: seq<Task>, n: nat, i: nat, j: nat)
    requires n <= |s| && SinkingAt(s, n, i) && LargestChild(s, n, i, j) && s[j].priority > s[i].priority
    ensures SinkingAt(Swapped(s, i, j), n, j)
  {
  }

  lemma SunkIsHeap(s: seq<Task>, n: nat, i: nat)
    requires n <= |s| && SinkingAt(s, n, i)
    requires 2 * i + 1 < n ==> s[2 * i + 1].priority <= s[i].priority
    requires 2 * i + 2 < n ==> s[2 * i + 2].priority <= s[i].priority
    ensures IsHeap(s, n)
  {
  }

  lemma SwapKeepsTail<T>(s: seq<T>, i: nat, j: nat, n: nat)
    requires i < n && j < n && n <= |s|
    ensures Swapped(s, i, j)[n..] == s[n..]
  {
  }

  lemma TailHolds<T>(s: seq<T>, r: seq<T>, n: nat)
    requires n < |s| == |r| && s[n..] == r[n..]
    ensures r[n] == s[n]
  {
  }

  lemma LastIsRemoved<T>(s: seq<T>, x: T)
    requires s != [] && x == s[|s| - 1]
    ensures multiset(s[..|s| - 1]) == multiset(s) - multiset{x}
  {
    assert s == s[..|s| - 1] + [x];
  }

  /** Cutting off the old root, once it is last, leaves a heap of everything else. */
  lemma RootLeaves(before: seq<Task>, after: seq<Task>, n: nat)
    requires |before| == |after| == n + 1 && IsHeap(before, n + 1) && IsHeap(after, n)
    requires multiset(after) == multiset(before) && after[n] == before[0]
    ensures IsHeap(after[..n], n)
    ensures multiset(after[..n]) == multiset(before) - multiset{after[n]}
    ensures after[n] in multiset(before) && forall x :: x in multiset(before) ==> x.priority <= after[n].priority
  {
    RootIsMaxOfAll(before);
    LastIsRemoved(after, after[n]);
  }

  // ----- Delayed tasks -----

  datatype DelayedItem = DelayedItem(task: Task, due: int)

  predicate Ripe(d: DelayedItem, now: int) {
    now >= d.due
  }

  /** The items of `ds` that are ripe (or that are not), in the order of `ds`. */
  function Pick(ds: seq<DelayedItem>, now: int, ripe: bool): seq<DelayedItem>
    decreases |ds|
  {
    if ds == [] then []
    else
      var front := Pick(ds[..|ds| - 1], now, ripe);
      if Ripe(ds[|ds| - 1], now) == ripe then front + [ds[|ds| - 1]] else front
  }

  function TasksOf(ds: seq<DelayedItem>): (ts: seq<Task>)
    ensures |ts| == |ds|
    ensures forall i :: 0 <= i < |ds| ==> ts[i] == ds[i].task
  {
    seq(|ds|, i requires 0 <= i < |ds| => ds[i].task)
  }

  lemma TasksOfAppend(ds: seq<DelayedItem>, d: DelayedItem)
    ensures TasksOf(ds + [d]) == TasksOf(ds) + [d.task]
  {
  }

  lemma PickStep(ds: seq<DelayedItem>, k: nat, now: int, ripe: bool)
    requires k < |ds|
    ensures Pick(ds[..k + 1], now, ripe)
         == if Ripe(ds[k], now) == ripe then Pick(ds[..k], now, ripe) + [ds[k]] else Pick(ds[..k], now, ripe)
  {
    assert ds[..k + 1][..k] == ds[..k];
  }

  /** Main result about a drain pass: what it picks is exactly the items that are due
      (or exactly the others), each once, in insertion order.  `from` says where each
      picked item comes from. */
  lemma {:induction false} PickIsExact(ds: seq<DelayedItem>, now: int, ripe: bool) returns (from: seq<nat>)
    ensures |from| == |Pick(ds, now, ripe)|
    ensures forall i :: 0 <= i < |from| ==> from[i] < |ds| && Pick(ds, now, ripe)[i] == ds[from[i]]
    ensures forall i, j :: 0 <= i < j < |from| ==> from[i] < from[j]
    ensures forall k: nat :: k < |ds| ==> (k in from <==> (now >= ds[k].due) == ripe)
    decreases |ds|
  {
    if ds == [] {
      from := [];
    } else {
      var last: nat := |ds| - 1;
      var front := PickIsExact(ds[..last], now, ripe);
      from := if Ripe(ds[last], now) == ripe then front + [last] else front;
    }
  }

  /** The two picks split the list: nothing is lost and nothing is duplicated. */
  lemma {:induction false} PicksSplit(ds: seq<DelayedItem>, now: int)
    ensures multiset(Pick(ds, now, true)) + multiset(Pick(ds, now, false)) == multiset(ds)
    decreases |ds|
  {
    if ds != [] {
      PicksSplit(ds[..|ds| - 1], now);
      assert ds == ds[..|ds| - 1] + [ds[|ds| - 1]];
    }
  }

  lemma {:induction false} PicksSplitTasks(ds: seq<DelayedItem>, now: int)
    ensures multiset(TasksOf(Pick(ds, now, true))) + multiset(TasksOf(Pick(ds, now, false))) == multiset(TasksOf(ds))
    decreases |ds|
  {
    if ds != [] {
      var front, last := ds[..|ds| - 1], ds[|ds| - 1];
      PicksSplitTasks(front, now);
      assert ds == front + [last];
      TasksOfAppend(front, last);
      TasksOfAppend(Pick(front, now, true), last);
      TasksOfAppend(Pick(front, now, false), last);
    }
  }

  // ----- The queue -----

  class InMemQueue {
    var items: seq<Task>
    var pq: seq<Task>
    var delayed: seq<DelayedItem>

    ghost predicate Valid()
      reads this
    {
      IsHeap(pq, |pq|)
    }

    /** The abstract queue this object stands for. */
    ghost function Contents(): TaskQueue.Queue
      reads this
    {
      TaskQueue.Queue(multiset(pq), items, multiset(TasksOf(delayed)))
    }

    constructor ()
      ensures Valid() && Contents() == TaskQueue.EMPTY
    {
      items, pq, delayed := [], [], [];
    }

    predicate Less(i: nat, j: nat)
      requires i < |pq| && j < |pq|
      reads this
    {
      pq[i].priority > pq[j].priority
    }

    method Swap(i: nat, j: nat)
      requires i < |pq| && j < |pq|
      modifies this`pq
      ensures pq == Swapped(old(pq), i, j)
    {
      pq := Swapped(pq, i, j);
    }

    /** Moves entry `j0` up until its parent is no smaller. */
    method Up(j0: nat)
      requires j0 < |pq| && RisingAt(pq, j0)
      modifies this`pq
      ensures IsHeap(pq, |pq|) && multiset(pq) == old(multiset(pq))
    {
      var j: nat := j0;
      while true
        invariant j < |pq| && RisingAt(pq, j) && multiset(pq) == old(multiset(pq))
        decreases j
      {
        if j == 0 { break; }
        var i := Parent(j);
        if !Less(j, i) { break; }
        RiseOnce(pq, j);
        Swap(i, j);
        j := i;
      }
      RisenIsHeap(pq, j);
    }

    /** Moves the root down within the first `n` entries until no child is larger. */
    method Down(n: nat)
      requires n <= |pq| && SinkingAt(pq, n, 0)
      modifies this`pq
      ensures |pq| == |old(pq)| && IsHeap(pq, n)
      ensures multiset(pq) == old(multiset(pq)) && pq[n..] == old(pq)[n..]
    {
      var i: nat := 0;
      while true
        invariant |pq| == |old(pq)| && multiset(pq) == old(multiset(pq)) && pq[n..] == old(pq)[n..]
        invariant SinkingAt(pq, n, i)
        decreases n - i
      {
        var j1 := 2 * i + 1;
        if j1 >= n { break; }
        var j := j1;
        var j2 := j1 + 1;
        if j2 < n && Less(j2, j1) { j := j2; }
        if !Less(j, i) { break; }
        assert LargestChild(pq, n, i, j);
        SinkOnce(pq, n, i, j);
        SwapKeepsTail(pq, i, j, n);
        Swap(i, j);
        i := j;
      }
      SunkIsHeap(pq, n, i);
    }

    method HeapPush(t: Task)
      requires Valid()
      modifies this`pq
      ensures Valid() && multiset(pq) == old(multiset(pq)) + multiset{t}
    {
      pq := pq + [t];
      Up(|pq| - 1);
    }

    /** Removes a task of highest priority. */
    method HeapPop() returns (t: Task)
      requires Valid() && |pq| > 0
      modifies this`pq
      ensures Valid() && t in old(multiset(pq)) && multiset(pq) == old(multiset(pq)) - multiset{t}
      ensures forall x :: x in old(multiset(pq)) ==> x.priority <= t.priority
    {
      SwappedRootSinks(pq);
      var n := |pq| - 1;
      ghost var before := pq;
      Swap(0, n);
      ghost var swapped := pq;
      Down(n);
      t := pq[n];
      TailHolds(swapped, pq, n);
      RootLeaves(before, pq, n);
      pq := pq[..n];
    }

    /** Takes a task out, from the priority queue first; None when nothing is ready. */
    method PopInternal() returns (r: Option<Task>)
      requires Valid()
      modifies this`pq, this`items
      ensures Valid()
      ensures r.None? <==> TaskQueue.NothingReady(old(Contents()))
      ensures r.None? ==> Contents() == old(Contents())
      ensures r.Some? ==> TaskQueue.CanPop(old(Contents()), r.value)
      ensures r.Some? ==> Contents() == TaskQueue.AfterPop(old(Contents()), r.value)
    {
      if |pq| > 0 {
        var t := HeapPop();
        r := Some(t);
      } else if |items| > 0 {
        r := Some(items[0]);
        items := items[1..];
      } else {
        r := None;
      }
    }

    method Push(t: Task)
      requires Valid()
      modifies this`items
      ensures Valid() && Contents() == TaskQueue.Push(old(Contents()), t) && items == old(items) + [t]
    {
      items := items + [t];
    }

    method PushPriority(t: Task)
      requires Valid()
      modifies this`pq
      ensures Valid() && Contents() == TaskQueue.PushPriority(old(Contents()), t)
    {
      HeapPush(t);
    }

    method PushDelayed(t: Task, delay: int, now: int)
      requires Valid()
      modifies this`delayed
      ensures Valid() && Contents() == TaskQueue.PushDelayed(old(Contents()), t)
      ensures delayed == old(delayed) + [DelayedItem(t, now + delay)]
    {
      TasksOfAppend(delayed, DelayedItem(t, now + delay));
      delayed := delayed + [DelayedItem(t, now + delay)];
    }

    /** One pass of the drain loop. */
    method Drain(now: int)
      requires Valid()
      modifies this`items, this`delayed
      ensures Valid()
      ensures items == old(items) + TasksOf(Pick(old(delayed), now, true))
      ensures delayed == Pick(old(delayed), now, false)
      ensures Contents() == TaskQueue.Release(old(Contents()), TasksOf(Pick(old(delayed), now, true)))
    {
      var remaining: seq<DelayedItem> := [];
      for k := 0 to |delayed|
        invariant delayed == old(delayed)
        invariant items == old(items) + TasksOf(Pick(delayed[..k], now, true))
        invariant remaining == Pick(delayed[..k], now, false)
      {
        PickStep(delayed, k, now, true);
        PickStep(delayed, k, now, false);
        if Ripe(delayed[k], now) {
          TasksOfAppend(Pick(delayed[..k], now, true), delayed[k]);
          items := items + [delayed[k].task];
        } else {
          remaining := remaining + [delayed[k]];
        }
      }
      assert delayed[..|delayed|] == delayed;
      PicksSplitTasks(delayed, now);
      delayed := remaining;
    }

    method Size() returns (n: nat)
      ensures n == |TaskQueue.Copies(Contents())|
    {
      n := |items| + |pq|;
      n := n + |delayed|;
    }
  }
}
