/** The drain loop of the in-memory queue against a concurrent Size
    (internal/queue/inmem.go): the drain holds the lock of the delayed list for a
    whole pass but takes the lock of the ready list once per moved task, and Size
    takes the two locks one after the other. */
module DrainRace {
  import opened Tasks
  import opened InMemQueues

  /** A drain pass under way: `next` items of the delayed list are decided, `base`
      is the ready list as the pass found it. */
  datatype Pass = Pass(now: int, next: nat, remaining: seq<DelayedItem>, base: seq<Task>)

  /** Size between and after its two reads; `moved` counts the tasks the drain has
      appended since the first read. */
  datatype Reader = Idle | FirstRead(total: nat, moved: nat) | Returned(total: nat, moved: nat)

  /** `pass` is present exactly while the drain holds the lock of the delayed list. */
  datatype State = State(items: seq<Task>, pq: seq<Task>, delayed: seq<DelayedItem>, pass: Option<Pass>, reader: Reader)

  datatype Event = StartPass(now: int) | NextItem | EndPass | ReadFirst | ReadSecond

  predicate Enabled(s: State, e: Event) {
    match e
    case StartPass(_) => s.pass.None?
    case NextItem => s.pass.Some? && s.pass.value.next < |s.delayed|
    case EndPass => s.pass.Some? && s.pass.value.next == |s.delayed|
    case ReadFirst => s.reader.Idle?
    case ReadSecond => s.reader.FirstRead? && s.pass.None?
  }

  function Apply(s: State, e: Event): State
    requires Enabled(s, e)
  {
    match e
    case StartPass(now) => s.(pass := Some(Pass(now, 0, [], s.items)))
    case NextItem =>
      var p := s.pass.value;
      var d := s.delayed[p.next];
      if Ripe(d, p.now) then
        s.(items := s.items + [d.task], pass := Some(p.(next := p.next + 1)),
           reader := match s.reader case FirstRead(total, moved) => FirstRead(total, moved + 1) case r => r)
      else
        s.(pass := Some(p.(next := p.next + 1, remaining := p.remaining + [d])))
    case EndPass => s.(delayed := s.pass.value.remaining, pass := None)
    case ReadFirst => s.(reader := FirstRead(|s.items| + |s.pq|, 0))
    case ReadSecond => s.(reader := Returned(s.reader.total + |s.delayed|, s.reader.moved))
  }

  predicate ValidRun(s: State, es: seq<Event>)
    decreases |es|
  {
    es == [] || (Enabled(s, es[0]) && ValidRun(Apply(s, es[0]), es[1..]))
  }

  function Run(s: State, es: seq<Event>): State
    requires ValidRun(s, es)
    decreases |es|
  {
    if es == [] then s else Run(Apply(s, es[0]), es[1..])
  }

  /** The delayed tasks that have not been moved yet. */
  function Pending(s: State): seq<DelayedItem>
    requires s.pass.Some? ==> s.pass.value.next <= |s.delayed|
  {
    match s.pass
    case None => s.delayed
    case Some(p) => p.remaining + s.delayed[p.next..]
  }

  /** A pass in progress has appended exactly the due tasks it has seen, in order, and
      kept exactly the others, in order. */
  ghost predicate PassIsExact(s: State) {
    match s.pass
    case None => true
    case Some(p) =>
      && p.next <= |s.delayed|
      && p.remaining == Pick(s.delayed[..p.next], p.now, false)
      && s.items == p.base + TasksOf(Pick(s.delayed[..p.next], p.now, true))
  }

  ghost predicate SizeIsExact(s: State, held: nat) {
    match s.reader
    case Idle => true
    case FirstRead(total, moved) => total + moved == |s.items| + |s.pq|
    case Returned(total, moved) => total + moved == held
  }

  ghost predicate Inv(s: State, held: nat) {
    && PassIsExact(s)
    && |s.items| + |s.pq| + |Pending(s)| == held
    && SizeIsExact(s, held)
  }

  lemma NextKeepsPassExact(s: State)
    requires PassIsExact(s) && Enabled(s, NextItem)
    ensures PassIsExact(Apply(s, NextItem))
  {
    var p := s.pass.value;
    var d, moved := s.delayed[p.next], Pick(s.delayed[..p.next], p.now, true);
    PickStep(s.delayed, p.next, p.now, true);
    PickStep(s.delayed, p.next, p.now, false);
    TasksOfAppend(moved, d);
    AppendToSecond(p.base, TasksOf(moved), d.task);
    var s' := Apply(s, NextItem);
    assert s'.items == if Ripe(d, p.now) then s.items + [d.task] else s.items;
    var remaining := if Ripe(d, p.now) then p.remaining else p.remaining + [d];
    assert s'.pass == Some(p.(next := p.next + 1, remaining := remaining));
    assert s'.delayed == s.delayed;
    hide Pick, TasksOf, Apply, Ripe;
  }

  lemma AppendToSecond<T>(a: seq<T>, b: seq<T>, x: T)
    ensures a + b + [x] == a + (b + [x])
  {
  }

  lemma NextKeepsCount(s: State, held: nat)
    requires Inv(s, held) && Enabled(s, NextItem)
    ensures Inv(Apply(s, NextItem), held)
  {
    var p, s' := s.pass.value, Apply(s, NextItem);
    NextKeepsPassExact(s);
    assert |Pending(s)| == |p.remaining| + |s.delayed| - p.next;
    assert |Pending(s')| == |s'.pass.value.remaining| + |s.delayed| - p.next - 1;
  }

  lemma StartKeepsInv(s: State, now: int, held: nat)
    requires Inv(s, held) && Enabled(s, StartPass(now))
    ensures Inv(Apply(s, StartPass(now)), held)
  {
  }

  lemma EndKeepsInv(s: State, held: nat)
    requires Inv(s, held) && Enabled(s, EndPass)
    ensures Inv(Apply(s, EndPass), held)
  {
  }

  lemma StepKeepsInv(s: State, e: Event, held: nat)
    requires Inv(s, held) && Enabled(s, e)
    ensures Inv(Apply(s, e), held)
  {
    match e {
      case StartPass(now) => StartKeepsInv(s, now, held);
      case NextItem => NextKeepsCount(s, held);
      case EndPass => EndKeepsInv(s, held);
      case ReadFirst =>
      case ReadSecond =>
    }
  }

  lemma {:induction false} RunKeepsInv(s: State, es: seq<Event>, held: nat)
    requires Inv(s, held) && ValidRun(s, es)
    ensures Inv(Run(s, es), held)
    decreases |es|
  {
    if es != [] {
      StepKeepsInv(s, es[0], held);
      RunKeepsInv(Apply(s, es[0]), es[1..], held);
    }
  }

  /** Main result: without pushes and pops, Size never counts a task twice, and falls
      short by exactly the tasks that the drain moved between its two reads. */
  lemma SizeMissesOnlyMoved(s: State, es: seq<Event>)
    requires s.pass.None? && s.reader.Idle? && ValidRun(s, es) && Run(s, es).reader.Returned?
    ensures Run(s, es).reader.total + Run(s, es).reader.moved == |s.items| + |s.pq| + |s.delayed|
  {
    RunKeepsInv(s, es, |s.items| + |s.pq| + |s.delayed|);
  }

  /** When a pass ends, whatever Size did meanwhile, the ready list has gained exactly
      the due tasks in insertion order and the delayed list keeps exactly the rest. */
  lemma PassEndsExactly(s: State, held: nat)
    requires Inv(s, held) && Enabled(s, EndPass)
    ensures var p := s.pass.value; var s' := Apply(s, EndPass);
            && s'.items == p.base + TasksOf(Pick(s.delayed, p.now, true))
            && s'.delayed == Pick(s.delayed, p.now, false)
  {
    assert s.delayed[..|s.delayed|] == s.delayed;
  }

  /** The short count does happen: Size reads the ready list, the drain moves a task,
      and Size reads the delayed list. */
  lemma SizeCanMiss(t: Task)
    ensures var s := State([], [], [DelayedItem(t, 0)], None, Idle);
            var es := [ReadFirst, StartPass(0), NextItem, EndPass, ReadSecond];
            ValidRun(s, es) && Run(s, es).reader == Returned(0, 1)
  {
  }
}
