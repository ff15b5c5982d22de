/** What becomes of a task when several schedulers share the store, the queue and the claim
    table: the counterpart of NothingStranded.NoTaskIsStranded. */
module ClusterStranded {
  import opened Tasks
  import opened TaskQueue
  import opened Lifecycle
  import opened NothingStranded
  import opened Claims
  import DispatchBound

  // ----- The copies -----

  /** `rows` keeps its tasks, as they were submitted, in `rows'`. */
  ghost predicate Extends(rows: map<Uid, Task>, rows': map<Uid, Task>) {
    forall u :: u in rows ==> u in rows' && SameSubmission(rows[u], rows'[u])
  }

  ghost predicate GoodHoldings(rows: map<Uid, Task>, m: multiset<Holding>) {
    forall h :: h in m ==> GoodCopy(rows, h.task) && Waiting(h.task)
  }

  ghost predicate GoodLocals(rows: map<Uid, Task>, own: map<SchedulerId, Private>) {
    forall id :: id in own ==> AllGood(rows, own[id].locals) && AllRunning(own[id].locals)
  }

  ghost predicate SoundBase(rows: map<Uid, Task>, queue: Queue, own: map<SchedulerId, Private>) {
    GoodRows(rows) && AllGood(rows, Copies(queue)) && AllWaiting(Copies(queue)) && GoodLocals(rows, own)
  }

  ghost predicate Sound(cl: Cluster) {
    SoundBase(cl.rows, cl.queue, cl.own) && GoodHoldings(cl.rows, cl.popped) && GoodHoldings(cl.rows, cl.won)
  }

  lemma ExtendsKeepsGood(rows: map<Uid, Task>, rows': map<Uid, Task>, m: multiset<Task>)
    requires Extends(rows, rows') && AllGood(rows, m)
    ensures AllGood(rows', m)
  {
  }

  lemma ViewIsWellFormed(cl: Cluster, id: SchedulerId)
    requires Sound(cl)
    ensures WellFormed(View(cl, id))
  {
  }

  lemma HandlerExtends(c: Config, s: State, e: Event)
    requires WellFormed(s) && Enabled(s, e)
    ensures Extends(s.rows, Apply(c, s, e).rows)
  {
    hide WellFormed;
    if !e.ECreate? {
      DispatchBound.StepKeepsLimits(c, s, e);
      hide Apply, Enabled;
    }
  }

  lemma DispatchExtends(s: State, t: Task, node: Option<NodeId>, now: int)
    requires GoodCopy(s.rows, t) && Waiting(t)
    ensures Extends(s.rows, Dispatch(s, t, node, now).rows)
  {
    DispatchBound.DispatchLimits(s, t, node, now);
    hide Dispatch;
  }

  lemma ExtendsKeepsHoldings(rows: map<Uid, Task>, rows': map<Uid, Task>, m: multiset<Holding>)
    requires Extends(rows, rows') && GoodHoldings(rows, m)
    ensures GoodHoldings(rows', m)
  {
  }

  lemma PutKeepsBase(cl: Cluster, id: SchedulerId, s: State)
    requires SoundBase(cl.rows, cl.queue, cl.own) && WellFormed(s) && Extends(cl.rows, s.rows)
    ensures var cl' := Put(cl, id, s); SoundBase(cl'.rows, cl'.queue, cl'.own)
  {
    forall i | i in cl.own ensures AllGood(s.rows, cl.own[i].locals) {
      ExtendsKeepsGood(cl.rows, s.rows, cl.own[i].locals);
    }
  }

  /** One scheduler goes from its view to `s`. */
  lemma PutKeepsSound(cl: Cluster, id: SchedulerId, s: State)
    requires Sound(cl) && WellFormed(s) && Extends(cl.rows, s.rows)
    ensures Sound(Put(cl, id, s))
  {
    PutKeepsBase(cl, id, s);
    ExtendsKeepsHoldings(cl.rows, s.rows, cl.popped);
    ExtendsKeepsHoldings(cl.rows, s.rows, cl.won);
    hide SoundBase, GoodHoldings, WellFormed;
  }

  lemma TickOnly(s: State, tick: Option<Budget>)
    requires WellFormed(s)
    ensures WellFormed(s.(tick := tick))
  {
  }

  lemma PopIsGood(cl: Cluster, id: SchedulerId, t: Task, tick: Option<Budget>)
    requires Sound(cl) && CanPop(cl.queue, t)
    ensures var s := View(cl, id); var q := AfterPop(s.queue, t);
            WellFormed(s.(queue := q, tick := tick)) && WellFormed(s.(queue := PushDelayed(q, t)))
    ensures GoodCopy(cl.rows, t) && Waiting(t)
  {
    var s := View(cl, id);
    ViewIsWellFormed(cl, id);
    hide Sound;
    PopKeepsWellFormed(s, t);
    var popped := s.(queue := AfterPop(s.queue, t));
    hide CanPop, AfterPop, WellFormed, GoodCopy;
    DelayKeepsWellFormed(popped, t);
    TickOnly(popped, tick);
  }

  lemma PopHeldKeepsSound(cl: Cluster, id: SchedulerId, t: Task, tick: Option<Budget>)
    requires Sound(cl) && CanPop(cl.queue, t)
    ensures var s := View(cl, id).(queue := AfterPop(cl.queue, t), tick := tick);
            Sound(Put(cl, id, s).(popped := cl.popped + multiset{Holding(id, t)}))
  {
    PopIsGood(cl, id, t, tick);
    AddHolding(cl.rows, cl.popped, Holding(id, t));
    hide SoundBase, CanPop, AfterPop, WellFormed, Own, GoodHoldings, GoodCopy;
    PutKeepsSound(cl, id, View(cl, id).(queue := AfterPop(cl.queue, t), tick := tick));
  }

  lemma PopDeferredKeepsSound(cl: Cluster, id: SchedulerId, t: Task)
    requires Sound(cl) && CanPop(cl.queue, t)
    ensures Sound(Put(cl, id, View(cl, id).(queue := PushDelayed(AfterPop(cl.queue, t), t))))
  {
    PopIsGood(cl, id, t, None);
    hide SoundBase, CanPop, AfterPop, WellFormed, Own, GoodHoldings, GoodCopy;
    PutKeepsSound(cl, id, View(cl, id).(queue := PushDelayed(AfterPop(cl.queue, t), t)));
  }

  lemma PopKeepsSound(cl: Cluster, id: SchedulerId, t: Task)
    requires Sound(cl) && CanStep(cl, SPop(id, t))
    ensures Sound(Pop(cl, id, t))
  {
    hide Sound, CanPop, AfterPop, Own;
    var b := View(cl, id).tick.value;
    if CanAllocate(t, b.cpu, b.mem) {
      PopHeldKeepsSound(cl, id, t, Some(Budget(b.cpu - t.cpuLimit, b.mem - t.memoryLimit, b.slots - 1)));
    } else {
      PopDeferredKeepsSound(cl, id, t);
    }
    hide Put, CanAllocate;
  }

  lemma AddHolding(rows: map<Uid, Task>, m: multiset<Holding>, h: Holding)
    requires GoodHoldings(rows, m) && GoodCopy(rows, h.task) && Waiting(h.task)
    ensures GoodHoldings(rows, m + multiset{h})
  {
  }

  lemma RemoveHolding(rows: map<Uid, Task>, m: multiset<Holding>, h: Holding)
    requires GoodHoldings(rows, m)
    ensures GoodHoldings(rows, m - multiset{h})
  {
  }

  lemma StartKeepsSound(cl: Cluster, h: Holding, node: Option<NodeId>, now: int)
    requires Sound(cl) && h in cl.won
    ensures Sound(Start(cl, h, node, now))
  {
    var s := View(cl, h.scheduler);
    ViewIsWellFormed(cl, h.scheduler);
    assert GoodCopy(cl.rows, h.task) && Waiting(h.task);
    hide SoundBase, WellFormed, Dispatch, GoodCopy;
    DispatchKeepsWellFormed(s, h.task, node, now);
    DispatchExtends(s, h.task, node, now);
    var after := Dispatch(s, h.task, node, now);
    PutKeepsSound(cl, h.scheduler, after);
    RemoveHolding(after.rows, cl.won, h);
    hide GoodHoldings, View, Extends;
  }

  lemma HandlerKeepsSound(c: Config, cl: Cluster, id: SchedulerId, e: Event)
    requires Sound(cl) && Enabled(View(cl, id), e)
    ensures Sound(Put(cl, id, Apply(c, View(cl, id), e)))
  {
    hide Enabled, Apply, Sound;
    ViewIsWellFormed(cl, id);
    StepKeepsWellFormed(c, View(cl, id), e);
    HandlerExtends(c, View(cl, id), e);
    PutKeepsSound(cl, id, Apply(c, View(cl, id), e));
  }

  lemma ClaimKeepsSound(cl: Cluster, h: Holding)
    requires Sound(cl) && h in cl.popped
    ensures Sound(Claim(cl, h))
  {
    hide SoundBase;
    assert GoodCopy(cl.rows, h.task) && Waiting(h.task);
    RemoveHolding(cl.rows, cl.popped, h);
    AddHolding(cl.rows, cl.won, h);
    hide GoodHoldings, GoodCopy;
  }

  lemma ClaimErrorKeepsSound(cl: Cluster, h: Holding, committed: bool)
    requires Sound(cl)
    ensures Sound(ClaimError(cl, h, committed))
  {
    RemoveHolding(cl.rows, cl.popped, h);
    hide SoundBase, GoodHoldings;
  }

  lemma ExpireKeepsSound(cl: Cluster, u: Uid)
    requires Sound(cl)
    ensures Sound(Expire(cl, u))
  {
    hide SoundBase, GoodHoldings;
  }

  lemma StepKeepsSound(c: Config, cl: Cluster, st: Step)
    requires Sound(cl) && CanStep(cl, st)
    ensures Sound(After(c, cl, st))
  {
    hide Sound, View, Enabled, Apply, CanPop, Pop, Claim, ClaimError, Start, Expire, Put;
    match st {
      case SPop(id, t) => PopKeepsSound(cl, id, t);
      case SClaim(h) => ClaimKeepsSound(cl, h);
      case SClaimError(h, committed) => ClaimErrorKeepsSound(cl, h, committed);
      case SStart(h, node, now) => StartKeepsSound(cl, h, node, now);
      case SExpire(u) => ExpireKeepsSound(cl, u);
      case SHandler(id, e) => HandlerKeepsSound(c, cl, id, e);
    }
  }

  // ----- Where a task is -----

  ghost predicate HoldsTask(m: multiset<Holding>, u: Uid) {
    exists h :: h in m && h.task.uid == u
  }

  /** A scheduler has a copy of `u` inside its dispatch, or one was given up. */
  ghost predicate HeldOrDropped(cl: Cluster, u: Uid) {
    HoldsTask(cl.popped, u) || HoldsTask(cl.won, u) || u in cl.dropped
  }

  ghost predicate RunsAt(own: map<SchedulerId, Private>, id: SchedulerId, u: Uid) {
    id in own && (Lifecycle.Holds(own[id].locals, u) || OnNode(own[id].nodeQueues, u) || u in own[id].pulled)
  }

  ghost predicate RunsElsewhere(own: map<SchedulerId, Private>, id: SchedulerId, u: Uid) {
    exists other :: other != id && RunsAt(own, other, u)
  }

  /** A waiting task has a copy in the queue or in a dispatch, unless one was given up; a
      running task has a run at some scheduler. */
  ghost predicate AccountedFor(cl: Cluster, u: Uid) {
    u in cl.rows ==>
      && (Waiting(cl.rows[u]) ==> Lifecycle.Holds(Copies(cl.queue), u) || HeldOrDropped(cl, u))
      && (cl.rows[u].status == Running ==> exists id :: RunsAt(cl.own, id, u))
  }

  /** A copy is given up only while a claim stands, or by an error. */
  ghost predicate DropsExplained(cl: Cluster, u: Uid) {
    u in cl.dropped ==> u in cl.claims || cl.expired[u] > 0 || u in cl.failed
  }

  ghost function Outside(cl: Cluster, id: SchedulerId, u: Uid): Elsewhere {
    Elsewhere(HeldOrDropped(cl, u), RunsElsewhere(cl.own, id, u))
  }

  lemma ViewIsAccounted(cl: Cluster, id: SchedulerId, u: Uid)
    requires AccountedFor(cl, u)
    ensures Accounted(View(cl, id), u, Outside(cl, id, u))
  {
    if u in cl.rows && cl.rows[u].status == Running {
      var at :| RunsAt(cl.own, at, u);
    }
    hide Waiting, Copies, HeldOrDropped, OnNode;
  }

  lemma PutIsAccounted(cl: Cluster, id: SchedulerId, s: State, u: Uid)
    requires Accounted(s, u, Outside(cl, id, u))
    ensures AccountedFor(Put(cl, id, s), u)
  {
    var cl' := Put(cl, id, s);
    if RunsElsewhere(cl.own, id, u) {
      var other :| other != id && RunsAt(cl.own, other, u);
      assert RunsAt(cl'.own, other, u);
    }
    if HasRun(s, u) { assert RunsAt(cl'.own, id, u); }
    assert HeldOrDropped(cl', u) == HeldOrDropped(cl, u);
    hide Waiting, Copies, HeldOrDropped, OnNode;
  }

  lemma HandlerAccounted(c: Config, cl: Cluster, id: SchedulerId, e: Event, u: Uid)
    requires Sound(cl) && AccountedFor(cl, u) && Enabled(View(cl, id), e)
    ensures AccountedFor(Put(cl, id, Apply(c, View(cl, id), e)), u)
  {
    hide Enabled, Apply, Accounted, AccountedFor, Sound, WellFormed;
    ViewIsWellFormed(cl, id);
    ViewIsAccounted(cl, id, u);
    StepKeepsAccounted(c, View(cl, id), e, u, Outside(cl, id, u));
    PutIsAccounted(cl, id, Apply(c, View(cl, id), e), u);
  }

  /** Only where the copies are matters, and nothing about it has been lost. */
  lemma MovedAccounted(cl: Cluster, cl': Cluster, u: Uid)
    requires AccountedFor(cl, u) && cl'.rows == cl.rows && cl'.own == cl.own
    requires Lifecycle.Holds(Copies(cl.queue), u) || HeldOrDropped(cl, u) ==>
               Lifecycle.Holds(Copies(cl'.queue), u) || HeldOrDropped(cl', u)
    ensures AccountedFor(cl', u)
  {
    hide Copies, HeldOrDropped;
  }

  lemma AddsHolding(m: multiset<Holding>, h: Holding, u: Uid)
    ensures HoldsTask(m + multiset{h}, u) <==> HoldsTask(m, u) || h.task.uid == u
  {
    assert h in m + multiset{h};
    if HoldsTask(m, u) {
      var x :| x in m && x.task.uid == u;
      assert x in m + multiset{h};
    }
  }

  lemma RemovesHolding(m: multiset<Holding>, h: Holding, u: Uid)
    requires h.task.uid != u
    ensures HoldsTask(m - multiset{h}, u) <==> HoldsTask(m, u)
  {
    if HoldsTask(m, u) {
      var x :| x in m && x.task.uid == u;
      assert x in m - multiset{h};
    }
  }

  lemma ClaimAccounted(cl: Cluster, h: Holding, u: Uid)
    requires AccountedFor(cl, u)
    ensures AccountedFor(Claim(cl, h), u)
  {
    AddsHolding(cl.won, h, u);
    if h.task.uid != u { RemovesHolding(cl.popped, h, u); }
    hide HoldsTask, AccountedFor;
    MovedAccounted(cl, Claim(cl, h), u);
  }

  lemma ClaimErrorAccounted(cl: Cluster, h: Holding, committed: bool, u: Uid)
    requires AccountedFor(cl, u)
    ensures AccountedFor(ClaimError(cl, h, committed), u)
  {
    if h.task.uid != u { RemovesHolding(cl.popped, h, u); }
    hide HoldsTask, AccountedFor;
    MovedAccounted(cl, ClaimError(cl, h, committed), u);
  }

  lemma StartAccounted(cl: Cluster, h: Holding, node: Option<NodeId>, now: int, u: Uid)
    requires Sound(cl) && AccountedFor(cl, u) && h in cl.won
    ensures AccountedFor(Start(cl, h, node, now), u)
  {
    var s := View(cl, h.scheduler);
    var left := cl.(won := cl.won - multiset{h});
    assert GoodCopy(cl.rows, h.task) && Waiting(h.task) by { hide SoundBase; }
    ViewIsAccounted(cl, h.scheduler, u);
    if h.task.uid != u { RemovesHolding(cl.won, h, u); }
    hide Sound, AccountedFor, Accounted, Dispatch, HoldsTask, GoodCopy;
    var x := Outside(left, h.scheduler, u);
    assert h.task.uid != u ==> x == Outside(cl, h.scheduler, u);
    DispatchAccounted(s, h.task, node, now, u, x);
    assert View(left, h.scheduler) == s;
    PutIsAccounted(left, h.scheduler, Dispatch(s, h.task, node, now), u);
    SameButStarter(Put(left, h.scheduler, Dispatch(s, h.task, node, now)), Start(cl, h, node, now), u);
  }

  lemma SameButStarter(cl: Cluster, cl': Cluster, u: Uid)
    requires AccountedFor(cl, u) && cl' == cl.(starter := cl'.starter)
    ensures AccountedFor(cl', u)
  {
  }

  lemma PopHeldAccounted(cl: Cluster, id: SchedulerId, t: Task, u: Uid, tick: Option<Budget>)
    requires AccountedFor(cl, u) && CanPop(cl.queue, t)
    ensures var s := View(cl, id).(queue := AfterPop(cl.queue, t), tick := tick);
            AccountedFor(Put(cl, id, s).(popped := cl.popped + multiset{Holding(id, t)}), u)
  {
    var held := cl.(popped := cl.popped + multiset{Holding(id, t)});
    ViewIsAccounted(cl, id, u);
    AddsHolding(cl.popped, Holding(id, t), u);
    hide AccountedFor, CanPop, AfterPop, Copies, HoldsTask, Own, Accounted, RunsElsewhere;
    TakenAccounted(View(cl, id), t, u, Outside(cl, id, u), Outside(held, id, u), tick);
    PutIsAccounted(held, id, View(cl, id).(queue := AfterPop(cl.queue, t), tick := tick), u);
  }

  lemma PopDeferredAccounted(cl: Cluster, id: SchedulerId, t: Task, u: Uid)
    requires AccountedFor(cl, u) && CanPop(cl.queue, t)
    ensures AccountedFor(Put(cl, id, View(cl, id).(queue := PushDelayed(AfterPop(cl.queue, t), t))), u)
  {
    ViewIsAccounted(cl, id, u);
    hide AccountedFor, CanPop, AfterPop, Copies, Own, Accounted;
    DeferAccounted(View(cl, id), t, u, Outside(cl, id, u));
    PutIsAccounted(cl, id, View(cl, id).(queue := PushDelayed(AfterPop(cl.queue, t), t)), u);
  }

  lemma PopAccounted(cl: Cluster, id: SchedulerId, t: Task, u: Uid)
    requires AccountedFor(cl, u) && CanStep(cl, SPop(id, t))
    ensures AccountedFor(Pop(cl, id, t), u)
  {
    hide AccountedFor, CanPop, AfterPop, Own;
    var b := View(cl, id).tick.value;
    if CanAllocate(t, b.cpu, b.mem) {
      PopHeldAccounted(cl, id, t, u, Some(Budget(b.cpu - t.cpuLimit, b.mem - t.memoryLimit, b.slots - 1)));
    } else {
      PopDeferredAccounted(cl, id, t, u);
    }
    hide Put, CanAllocate;
  }

  lemma TakenAccounted(s: State, t: Task, u: Uid, x: Elsewhere, y: Elsewhere, tick: Option<Budget>)
    requires CanPop(s.queue, t) && Accounted(s, u, x) && (x.copy ==> y.copy) && (x.run ==> y.run)
             && (t.uid == u ==> y.copy)
    ensures Accounted(s.(queue := AfterPop(s.queue, t), tick := tick), u, y)
  {
    if t.uid != u { PopOfOtherAccounted(s, t, u, x); }
    hide CanPop, AfterPop, Copies;
  }

  lemma StepKeepsAccountedFor(c: Config, cl: Cluster, st: Step, u: Uid)
    requires Sound(cl) && AccountedFor(cl, u) && CanStep(cl, st)
    ensures AccountedFor(After(c, cl, st), u)
  {
    hide Sound, AccountedFor, View, Enabled, Apply, CanPop, Pop, Claim, ClaimError, Start, Put;
    match st {
      case SPop(id, t) => PopAccounted(cl, id, t, u);
      case SClaim(h) => ClaimAccounted(cl, h, u);
      case SClaimError(h, committed) => ClaimErrorAccounted(cl, h, committed, u);
      case SStart(h, node, now) => StartAccounted(cl, h, node, now, u);
      case SExpire(v) => MovedAccounted(cl, Expire(cl, v), u);
      case SHandler(id, e) => HandlerAccounted(c, cl, id, e, u);
    }
  }

  lemma StepKeepsDropsExplained(c: Config, cl: Cluster, st: Step, u: Uid)
    requires DropsExplained(cl, u) && CanStep(cl, st)
    ensures DropsExplained(After(c, cl, st), u)
  {
    hide Enabled, Apply, CanPop, Dispatch, View, AfterPop, Pop, Put, Start;
    match st {
      case SPop(id, t) => PopDropsNothing(cl, id, t);
      case SStart(h, node, now) => StartDropsNothing(cl, h, node, now);
      case SHandler(id, e) => PutDropsNothing(cl, id, Apply(c, View(cl, id), e));
      case _ =>
    }
  }

  lemma PutDropsNothing(cl: Cluster, id: SchedulerId, s: State)
    ensures var cl' := Put(cl, id, s);
            cl'.dropped == cl.dropped && cl'.claims == cl.claims && cl'.expired == cl.expired && cl'.failed == cl.failed
  {
  }

  lemma PopDropsNothing(cl: Cluster, id: SchedulerId, t: Task)
    requires View(cl, id).tick.Some?
    ensures var cl' := Pop(cl, id, t);
            cl'.dropped == cl.dropped && cl'.claims == cl.claims && cl'.expired == cl.expired && cl'.failed == cl.failed
  {
    var s := View(cl, id);
    var b := s.tick.value;
    var q := AfterPop(s.queue, t);
    hide View, Put, AfterPop, CanAllocate;
    PutDropsNothing(cl, id, s.(queue := PushDelayed(q, t)));
    var left := Budget(b.cpu - t.cpuLimit, b.mem - t.memoryLimit, b.slots - 1);
    PutDropsNothing(cl, id, s.(queue := q, tick := Some(left)));
  }

  lemma StartDropsNothing(cl: Cluster, h: Holding, node: Option<NodeId>, now: int)
    ensures var cl' := Start(cl, h, node, now);
            cl'.dropped == cl.dropped && cl'.claims == cl.claims && cl'.expired == cl.expired && cl'.failed == cl.failed
  {
    hide Dispatch;
  }

  lemma {:induction false} StepsKeepAccountedFor(c: Config, cl: Cluster, sts: seq<Step>, u: Uid)
    requires Sound(cl) && AccountedFor(cl, u) && DropsExplained(cl, u) && CanSteps(c, cl, sts)
    ensures AccountedFor(Steps(c, cl, sts), u) && DropsExplained(Steps(c, cl, sts), u)
    decreases |sts|
  {
    hide Sound, AccountedFor, DropsExplained, After, CanStep;
    if sts != [] {
      StepKeepsSound(c, cl, sts[0]);
      StepKeepsAccountedFor(c, cl, sts[0], u);
      StepKeepsDropsExplained(c, cl, sts[0], u);
      StepsKeepAccountedFor(c, After(c, cl, sts[0]), sts[1..], u);
    }
  }

  /** Main result, for any number of schedulers and any interleaving: every Running row has
      a run at some scheduler, and every Created or Pending row has a copy in the queue or
      inside a dispatch, unless a popped copy of it was given up; and that has happened
      only where a claim on the task stands or has stood, or a claim returned an error. */
  lemma WhereEveryTaskIs(c: Config, sts: seq<Step>, u: Uid)
    requires CanSteps(c, NO_CLAIMS, sts) && u in Steps(c, NO_CLAIMS, sts).rows
    ensures var cl := Steps(c, NO_CLAIMS, sts);
            && (cl.rows[u].status == Running ==> exists id :: RunsAt(cl.own, id, u))
            && (Waiting(cl.rows[u]) ==>
                  || Lifecycle.Holds(Copies(cl.queue), u) || HoldsTask(cl.popped, u) || HoldsTask(cl.won, u)
                  || u in cl.dropped)
            && (u in cl.dropped ==> u in cl.claims || cl.expired[u] > 0 || u in cl.failed)
  {
    assert Sound(NO_CLAIMS) && AccountedFor(NO_CLAIMS, u) && DropsExplained(NO_CLAIMS, u);
    StepsKeepAccountedFor(c, NO_CLAIMS, sts, u);
    hide Steps, CanSteps, Sound;
  }
}
