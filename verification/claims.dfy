/** Several schedulers over one store and one queue, with a claim table in etcd
    (internal/scheduler/scheduler.go, ClaimTask and dispatch).  Every scheduler runs the
    lifecycle machine, except that a popped task that fits must be claimed by a
    compare-and-swap before it is started.  A claim is never deleted, but it can expire
    with the lease of the scheduler that made it. */
module Claims {
  import opened Sums
  import opened Tasks
  import opened TaskQueue
  import opened Lifecycle
  import opened DispatchBound

  type SchedulerId = string

  /** The part of the state that belongs to one scheduler. */
  datatype Private = Private(
    locals: multiset<Task>,
    nodeQueues: map<NodeId, seq<Task>>,
    pulled: multiset<Uid>,
    tick: Option<Budget>
  )

  const IDLE := Private(multiset{}, map[], multiset{}, None)

  /** A copy of a task inside a scheduler's dispatch. */
  datatype Holding = Holding(scheduler: SchedulerId, task: Task)

  /** `popped` holds the copies that are about to be claimed, `won` those whose claim
      succeeded and that have not been started yet.  `expired` counts the claims that
      ran out and `starter` is the last scheduler that started a task.  `dropped` holds the
      tasks of which a popped copy was given up for want of a claim, `failed` those of
      which one was given up because the transaction returned an error. */
  datatype Cluster = Cluster(
    rows: map<Uid, Task>,
    queue: Queue,
    own: map<SchedulerId, Private>,
    claims: map<Uid, SchedulerId>,
    popped: multiset<Holding>,
    won: multiset<Holding>,
    started: multiset<Uid>,
    starter: map<Uid, SchedulerId>,
    expired: multiset<Uid>,
    dropped: set<Uid>,
    failed: set<Uid>
  )

  const NO_CLAIMS :=
    Cluster(map[], TaskQueue.EMPTY, map[], map[], multiset{}, multiset{}, multiset{}, map[], multiset{}, {}, {})

  function Own(cl: Cluster, id: SchedulerId): Private {
    if id in cl.own then cl.own[id] else IDLE
  }

  /** The lifecycle state as scheduler `id` sees it. */
  function View(cl: Cluster, id: SchedulerId): State {
    var p := Own(cl, id);
    State(cl.rows, cl.queue, p.locals, p.nodeQueues, p.pulled, p.tick, cl.started)
  }

  function Put(cl: Cluster, id: SchedulerId, s: State): Cluster {
    cl.(rows := s.rows, queue := s.queue, started := s.started,
        own := cl.own[id := Private(s.locals, s.nodeQueues, s.pulled, s.tick)])
  }

  /** Takes `t` from the queue: it goes on to dispatch if it fits, else it is put off. */
  function Pop(cl: Cluster, id: SchedulerId, t: Task): Cluster
    requires View(cl, id).tick.Some?
  {
    var s := View(cl, id);
    var b := s.tick.value;
    var q := AfterPop(s.queue, t);
    if CanAllocate(t, b.cpu, b.mem) then
      Put(cl, id, s.(queue := q, tick := Some(Budget(b.cpu - t.cpuLimit, b.mem - t.memoryLimit, b.slots - 1))))
        .(popped := cl.popped + multiset{Holding(id, t)})
    else
      Put(cl, id, s.(queue := PushDelayed(q, t)))
  }

  /** The compare-and-swap.  A copy whose claim fails is dropped. */
  function Claim(cl: Cluster, h: Holding): Cluster {
    var rest := cl.(popped := cl.popped - multiset{h});
    if h.task.uid in cl.claims then rest.(dropped := cl.dropped + {h.task.uid})
    else rest.(claims := cl.claims[h.task.uid := h.scheduler], won := cl.won + multiset{h})
  }

  /** The transaction returns an error; it may have taken effect all the same. */
  function ClaimError(cl: Cluster, h: Holding, committed: bool): Cluster {
    var rest := cl.(popped := cl.popped - multiset{h}, dropped := cl.dropped + {h.task.uid},
        failed := cl.failed + {h.task.uid});
    if !committed || h.task.uid in cl.claims then rest
    else rest.(claims := cl.claims[h.task.uid := h.scheduler])
  }

  /** What dispatch does after the claim. */
  function Start(cl: Cluster, h: Holding, node: Option<NodeId>, now: int): Cluster {
    var s := Dispatch(View(cl, h.scheduler), h.task, node, now);
    Put(cl, h.scheduler, s).(
      won := cl.won - multiset{h},
      starter := if s.started == cl.started then cl.starter else cl.starter[h.task.uid := h.scheduler])
  }

  function Expire(cl: Cluster, u: Uid): Cluster {
    cl.(claims := cl.claims - {u}, expired := cl.expired + multiset{u})
  }

  datatype Step =
    | SPop(id: SchedulerId, task: Task)
    | SClaim(holding: Holding)
    | SClaimError(holding: Holding, committed: bool)
    | SStart(holding: Holding, node: Option<NodeId>, now: int)
    | SExpire(uid: Uid)
    | SHandler(id: SchedulerId, event: Event)

  ghost predicate CanStep(cl: Cluster, st: Step) {
    match st
    case SPop(id, t) => View(cl, id).tick.Some? && View(cl, id).tick.value.slots > 0 && CanPop(cl.queue, t)
    case SClaim(h) => h in cl.popped
    case SClaimError(h, _) => h in cl.popped
    case SStart(h, _, _) => h in cl.won
    case SExpire(u) => u in cl.claims
    case SHandler(id, e) => !e.ETickPop? && Enabled(View(cl, id), e)
  }

  ghost function After(c: Config, cl: Cluster, st: Step): Cluster
    requires CanStep(cl, st)
  {
    match st
    case SPop(id, t) => Pop(cl, id, t)
    case SClaim(h) => Claim(cl, h)
    case SClaimError(h, committed) => ClaimError(cl, h, committed)
    case SStart(h, node, now) => Start(cl, h, node, now)
    case SExpire(u) => Expire(cl, u)
    case SHandler(id, e) => Put(cl, id, Apply(c, View(cl, id), e))
  }

  ghost predicate CanSteps(c: Config, cl: Cluster, sts: seq<Step>)
    decreases |sts|
  {
    sts == [] || (CanStep(cl, sts[0]) && CanSteps(c, After(c, cl, sts[0]), sts[1..]))
  }

  ghost function Steps(c: Config, cl: Cluster, sts: seq<Step>): Cluster
    requires CanSteps(c, cl, sts)
    decreases |sts|
  {
    if sts == [] then cl else Steps(c, After(c, cl, sts[0]), sts[1..])
  }

  // ----- Counting -----

  function IsOf(u: Uid): Holding -> nat {
    (h: Holding) => if h.task.uid == u then 1 else 0
  }

  /** How many won claims of `u` wait to be started. */
  ghost function WonOf(won: multiset<Holding>, u: Uid): nat {
    Sum(IsOf(u), won)
  }

  lemma WonAdd(won: multiset<Holding>, u: Uid, h: Holding)
    ensures WonOf(won + multiset{h}, u) == WonOf(won, u) + if h.task.uid == u then 1 else 0
  {
    SumAdd(IsOf(u), won, h);
  }

  lemma WonRemove(won: multiset<Holding>, u: Uid, h: Holding)
    requires h in won
    ensures WonOf(won, u) == WonOf(won - multiset{h}, u) + if h.task.uid == u then 1 else 0
  {
    SumRemove(IsOf(u), won, h);
  }

  /** Every start, and every start still to come, was paid for by a claim. */
  ghost predicate Bounded(cl: Cluster, u: Uid) {
    cl.started[u] + WonOf(cl.won, u) <= cl.expired[u] + if u in cl.claims then 1 else 0
  }

  /** Until a claim of `u` expires, its owner is the only one that starts `u`. */
  ghost predicate Owned(cl: Cluster, u: Uid) {
    cl.expired[u] == 0 ==>
      && (forall h :: h in cl.won && h.task.uid == u ==> u in cl.claims && cl.claims[u] == h.scheduler)
      && (cl.started[u] > 0 ==> u in cl.starter && u in cl.claims && cl.claims[u] == cl.starter[u])
  }

  ghost predicate Exclusive(cl: Cluster, u: Uid) {
    Bounded(cl, u) && Owned(cl, u)
  }

  lemma WinningKeepsExclusive(cl: Cluster, cl': Cluster, h: Holding, u: Uid)
    requires Exclusive(cl, u) && h.task.uid !in cl.claims
    requires cl'.won == cl.won + multiset{h} && cl'.claims == cl.claims[h.task.uid := h.scheduler]
    requires cl'.expired == cl.expired && cl'.started == cl.started && cl'.starter == cl.starter
    ensures Exclusive(cl', u)
  {
    WonAdd(cl.won, u, h);
    hide WonOf;
  }

  lemma ClaimKeepsExclusive(cl: Cluster, h: Holding, u: Uid)
    requires Exclusive(cl, u)
    ensures Exclusive(Claim(cl, h), u)
  {
    hide Exclusive;
    if h.task.uid in cl.claims {
      SameClaimsKeepExclusive(cl, Claim(cl, h), u);
    } else {
      WinningKeepsExclusive(cl, Claim(cl, h), h, u);
    }
  }

  /** A won claim is used up: by a start, or by a dispatch that stopped early. */
  lemma UsingAClaimKeepsExclusive(cl: Cluster, cl': Cluster, h: Holding, u: Uid)
    requires Exclusive(cl, u) && h in cl.won
    requires cl'.won == cl.won - multiset{h} && cl'.claims == cl.claims && cl'.expired == cl.expired
    requires || (cl'.started == cl.started && cl'.starter == cl.starter)
             || (cl'.started == cl.started + multiset{h.task.uid}
                 && cl'.starter == cl.starter[h.task.uid := h.scheduler])
    ensures Exclusive(cl', u)
  {
    WonRemove(cl.won, u, h);
  }

  lemma StartKeepsExclusive(cl: Cluster, h: Holding, node: Option<NodeId>, now: int, u: Uid)
    requires Exclusive(cl, u) && h in cl.won
    ensures Exclusive(Start(cl, h, node, now), u)
  {
    hide Exclusive;
    DispatchStartsAtMostOnce(View(cl, h.scheduler), h.task, node, now);
    hide Dispatch;
    UsingAClaimKeepsExclusive(cl, Start(cl, h, node, now), h, u);
  }

  lemma SameClaimsKeepExclusive(cl: Cluster, cl': Cluster, u: Uid)
    requires Exclusive(cl, u)
    requires cl'.won == cl.won && cl'.claims == cl.claims && cl'.expired == cl.expired
    requires cl'.started == cl.started && cl'.starter == cl.starter
    ensures Exclusive(cl', u)
  {
  }

  lemma HandlerKeepsExclusive(c: Config, cl: Cluster, id: SchedulerId, e: Event, u: Uid)
    requires Exclusive(cl, u) && Enabled(View(cl, id), e) && !e.ETickPop?
    ensures Exclusive(Put(cl, id, Apply(c, View(cl, id), e)), u)
  {
    hide Apply, Enabled, Exclusive;
    HandlersStartNothing(c, View(cl, id), e);
    SameClaimsKeepExclusive(cl, Put(cl, id, Apply(c, View(cl, id), e)), u);
  }

  lemma PopKeepsExclusive(cl: Cluster, id: SchedulerId, t: Task, u: Uid)
    requires Exclusive(cl, u) && View(cl, id).tick.Some?
    ensures Exclusive(Pop(cl, id, t), u)
  {
    hide Exclusive;
    SameClaimsKeepExclusive(cl, Pop(cl, id, t), u);
  }

  lemma ClaimErrorKeepsExclusive(cl: Cluster, h: Holding, committed: bool, u: Uid)
    requires Exclusive(cl, u)
    ensures Exclusive(ClaimError(cl, h, committed), u)
  {
  }

  lemma ExpireKeepsExclusive(cl: Cluster, v: Uid, u: Uid)
    requires Exclusive(cl, u) && v in cl.claims
    ensures Exclusive(Expire(cl, v), u)
  {
  }

  lemma StepKeepsExclusive(c: Config, cl: Cluster, st: Step, u: Uid)
    requires Exclusive(cl, u) && CanStep(cl, st)
    ensures Exclusive(After(c, cl, st), u)
  {
    hide Exclusive, View, Enabled, Apply, CanPop, Pop, Claim, ClaimError, Start, Expire, Put;
    match st {
      case SPop(id, t) => PopKeepsExclusive(cl, id, t, u);
      case SClaim(h) => ClaimKeepsExclusive(cl, h, u);
      case SClaimError(h, committed) => ClaimErrorKeepsExclusive(cl, h, committed, u);
      case SStart(h, node, now) => StartKeepsExclusive(cl, h, node, now, u);
      case SExpire(v) => ExpireKeepsExclusive(cl, v, u);
      case SHandler(id, e) => HandlerKeepsExclusive(c, cl, id, e, u);
    }
  }

  lemma {:induction false} StepsKeepExclusive(c: Config, cl: Cluster, sts: seq<Step>, u: Uid)
    requires Exclusive(cl, u) && CanSteps(c, cl, sts)
    ensures Exclusive(Steps(c, cl, sts), u)
    decreases |sts|
  {
    hide After, CanStep, Exclusive;
    if sts != [] {
      StepKeepsExclusive(c, cl, sts[0], u);
      StepsKeepExclusive(c, After(c, cl, sts[0]), sts[1..], u);
    }
  }

  /** Main result: however many schedulers there are and however their steps interleave, a
      task enters Running at most once more often than its claims have expired.  While none
      has, it enters Running at most once, and the scheduler that started it is the one the
      claim table names. */
  lemma ClaimsExclude(c: Config, sts: seq<Step>, u: Uid)
    requires CanSteps(c, NO_CLAIMS, sts)
    ensures var cl := Steps(c, NO_CLAIMS, sts);
            && cl.started[u] <= cl.expired[u] + 1
            && (cl.expired[u] == 0 && cl.started[u] > 0 ==>
                  cl.started[u] == 1 && u in cl.claims && u in cl.starter && cl.claims[u] == cl.starter[u])
  {
    hide After, CanStep;
    assert Exclusive(NO_CLAIMS, u);
    StepsKeepExclusive(c, NO_CLAIMS, sts, u);
  }

  lemma LocalIgnoresTick(s: State, t: Task, now: int, tick: Option<Budget>)
    ensures DispatchLocal(s.(tick := tick), t, now) == DispatchLocal(s, t, now).(tick := tick)
  {
    hide Update;
  }

  lemma RemoteIgnoresTick(s: State, t: Task, node: NodeId, now: int, tick: Option<Budget>)
    ensures DispatchRemote(s.(tick := tick), t, node, now) == DispatchRemote(s, t, node, now).(tick := tick)
  {
    assert NodeQueue(s.(tick := tick), node) == NodeQueue(s, node);
    hide Update, NodeQueue;
  }

  lemma LaunchIgnoresTick(s: State, t: Task, node: Option<NodeId>, now: int, tick: Option<Budget>)
    ensures Launch(s.(tick := tick), t, node, now) == Launch(s, t, node, now).(tick := tick)
  {
    hide DispatchLocal, DispatchRemote;
    match node {
      case None => LocalIgnoresTick(s, t, now, tick);
      case Some(n) => RemoteIgnoresTick(s, t, n, now, tick);
    }
  }

  lemma DispatchIgnoresTick(s: State, t: Task, node: Option<NodeId>, now: int, tick: Option<Budget>)
    ensures Dispatch(s.(tick := tick), t, node, now) == Dispatch(s, t, node, now).(tick := tick)
  {
    hide Launch, Update;
    LaunchIgnoresTick(s, t, node, now, tick);
    if t.status == Created {
      var p := t.(status := Pending);
      LaunchIgnoresTick(Save(s, p), p, node, now, tick);
    }
  }

  lemma StartIsDispatch(cl: Cluster, h: Holding, node: Option<NodeId>, now: int)
    ensures View(Start(cl, h, node, now), h.scheduler) == Dispatch(View(cl, h.scheduler), h.task, node, now)
    ensures Start(cl, h, node, now).claims == cl.claims && Start(cl, h, node, now).popped == cl.popped
    ensures Start(cl, h, node, now).won == cl.won - multiset{h}
  {
    hide Dispatch;
  }

  lemma ClaimedView(cl: Cluster, id: SchedulerId, t: Task)
    requires View(cl, id).tick.Some? && t.uid !in cl.claims
    requires CanAllocate(t, View(cl, id).tick.value.cpu, View(cl, id).tick.value.mem)
    ensures var b := View(cl, id).tick.value;
            var claimed := Claim(Pop(cl, id, t), Holding(id, t));
            && View(claimed, id) == View(cl, id).(
                 queue := AfterPop(cl.queue, t),
                 tick := Some(Budget(b.cpu - t.cpuLimit, b.mem - t.memoryLimit, b.slots - 1)))
            && claimed.claims == cl.claims[t.uid := id] && claimed.popped == cl.popped
            && claimed.won == cl.won + multiset{Holding(id, t)}
  {
    hide AfterPop, CanAllocate;
  }

  lemma FittingTickPop(s: State, t: Task, node: Option<NodeId>, now: int)
    requires s.tick.Some? && CanAllocate(t, s.tick.value.cpu, s.tick.value.mem)
    ensures var b := s.tick.value;
            TickPop(s, t, node, now) == Dispatch(s.(queue := AfterPop(s.queue, t)), t, node, now)
              .(tick := Some(Budget(b.cpu - t.cpuLimit, b.mem - t.memoryLimit, b.slots - 1)))
  {
    hide Dispatch;
  }

  /** When nobody holds a claim on the task, popping, claiming and starting it are together
      the step of a scheduler alone. */
  lemma UncontestedIsTickPop(cl: Cluster, id: SchedulerId, t: Task, node: Option<NodeId>, now: int)
    requires View(cl, id).tick.Some? && t.uid !in cl.claims
    requires t.cpuLimit <= 0 || t.cpuLimit <= View(cl, id).tick.value.cpu
    requires t.memoryLimit <= 0 || t.memoryLimit <= View(cl, id).tick.value.mem
    ensures var claimed := Claim(Pop(cl, id, t), Holding(id, t));
            var end := Start(claimed, Holding(id, t), node, now);
            && Holding(id, t) in claimed.won && end.claims == cl.claims[t.uid := id]
            && end.popped == cl.popped && end.won == cl.won
            && View(end, id) == TickPop(View(cl, id), t, node, now)
  {
    hide Dispatch, Claim, Pop, Start, AfterPop, TickPop;
    var s := View(cl, id);
    var h := Holding(id, t);
    var paid := Some(Budget(s.tick.value.cpu - t.cpuLimit, s.tick.value.mem - t.memoryLimit, s.tick.value.slots - 1));
    assert cl.queue == s.queue && CanAllocate(t, s.tick.value.cpu, s.tick.value.mem);
    hide View, CanAllocate;
    ClaimedView(cl, id, t);
    StartIsDispatch(Claim(Pop(cl, id, t), h), h, node, now);
    DispatchIgnoresTick(s.(queue := AfterPop(s.queue, t)), t, node, now, paid);
    FittingTickPop(s, t, node, now);
    assert cl.won + multiset{h} - multiset{h} == cl.won;
  }

  /** And so is putting off a task that does not fit. */
  lemma PutOffIsTickPop(cl: Cluster, id: SchedulerId, t: Task, node: Option<NodeId>, now: int)
    requires View(cl, id).tick.Some?
    requires t.cpuLimit > View(cl, id).tick.value.cpu >= 0 || t.memoryLimit > View(cl, id).tick.value.mem >= 0
    ensures View(Pop(cl, id, t), id) == TickPop(View(cl, id), t, node, now)
    ensures Pop(cl, id, t).popped == cl.popped && Pop(cl, id, t).claims == cl.claims
  {
    hide Dispatch, AfterPop;
  }

  /** A popped copy wins its claim exactly when no claim on the task stands; otherwise the
      copy is given up and nothing else changes. */
  lemma ClaimWinsIff(cl: Cluster, h: Holding)
    ensures Claim(cl, h).won == cl.won + multiset{h} <==> h.task.uid !in cl.claims
    ensures h.task.uid in cl.claims ==>
              Claim(cl, h) == cl.(popped := cl.popped - multiset{h}, dropped := cl.dropped + {h.task.uid})
  {
    assert cl.won[h] != (cl.won + multiset{h})[h];
  }

  /** Main result: once a task has been started, and as long as no claim on it has expired,
      every copy of it that any scheduler pops is given up; no retry is ever started. */
  lemma EveryRetryIsDropped(c: Config, sts: seq<Step>, h: Holding)
    requires CanSteps(c, NO_CLAIMS, sts) && h in Steps(c, NO_CLAIMS, sts).popped
    requires var cl := Steps(c, NO_CLAIMS, sts); cl.started[h.task.uid] > 0 && cl.expired[h.task.uid] == 0
    ensures var cl := Steps(c, NO_CLAIMS, sts);
            Claim(cl, h) == cl.(popped := cl.popped - multiset{h}, dropped := cl.dropped + {h.task.uid})
  {
    ClaimsExclude(c, sts, h.task.uid);
    hide Steps, CanSteps;
  }

  // ----- What claims cost: a retry under a surviving claim is lost -----

  const TASK := NewTask("u", "n", "true")
  const RUN := RunningCopy(TASK, None, 0)
  const ERROR_RESULT := TaskResult(1, "", "", false, Some("exit status 1"))
  const RETRY := Retried(RUN.(finishedAt := Some(0)), "exit status 1")
  const CLAIMED: map<Uid, SchedulerId> := map["u" := "a"]
  const RAN: multiset<Uid> := multiset{"u"}

  /** No other task and no other scheduler than "a"; the claim is taken once `started`. */
  function Alone(row: Task, queue: Queue, mine: Private, popped: multiset<Holding>, won: multiset<Holding>,
                 claims: map<Uid, SchedulerId>, started: multiset<Uid>): Cluster
  {
    Cluster(map["u" := row], queue, map["a" := mine], claims, popped, won, started,
            if started == multiset{} then map[] else map["u" := "a"], multiset{}, {}, {})
  }

  function Ticking(locals: multiset<Task>, c: Config, slots: int): Private {
    Private(locals, map[], multiset{}, Some(Budget(c.totalCpu, c.totalMem, slots)))
  }

  function Between(locals: multiset<Task>): Private {
    Private(locals, map[], multiset{}, None)
  }

  lemma {:induction false} StepsConcat(c: Config, cl: Cluster, sts: seq<Step>, more: seq<Step>)
    requires CanSteps(c, cl, sts) && CanSteps(c, Steps(c, cl, sts), more)
    ensures CanSteps(c, cl, sts + more) && Steps(c, cl, sts + more) == Steps(c, Steps(c, cl, sts), more)
    decreases |sts|
  {
    hide CanStep, After;
    if sts == [] {
      assert sts + more == more;
    } else {
      StepsConcat(c, After(c, cl, sts[0]), sts[1..], more);
      assert sts + more == [sts[0]] + (sts[1..] + more);
      assert (sts + more)[1..] == sts[1..] + more;
    }
  }

  function Listing(t: Task): Queue {
    Queue(multiset{}, [t], multiset{})
  }

  lemma Then(c: Config, sts: seq<Step>, st: Step) returns (more: seq<Step>)
    requires CanSteps(c, NO_CLAIMS, sts) && CanStep(Steps(c, NO_CLAIMS, sts), st)
    ensures CanSteps(c, NO_CLAIMS, more) && Steps(c, NO_CLAIMS, more) == After(c, Steps(c, NO_CLAIMS, sts), st)
  {
    hide CanStep, After;
    more := sts + [st];
    assert [st][1..] == [];
    StepsConcat(c, NO_CLAIMS, sts, [st]);
  }

  lemma TickOpens(c: Config, row: Task, t: Task, claims: map<Uid, SchedulerId>, started: multiset<Uid>)
      returns (st: Step)
    requires c.maxConcurrent > 0 && row.status != Running
    ensures var before := Alone(row, Listing(t), Between(multiset{}), multiset{}, multiset{}, claims, started);
            CanStep(before, st) && After(c, before, st)
              == Alone(row, Listing(t), Ticking(multiset{}, c, c.maxConcurrent), multiset{}, multiset{}, claims,
                  started)
  {
    st := SHandler("a", ETickBegin([], 0));
    var before := Alone(row, Listing(t), Between(multiset{}), multiset{}, multiset{}, claims, started);
    assert IsSnapshot(before.rows, []);
    assert TickBegin(c, View(before, "a"), [], 0)
        == View(before, "a").(tick := Some(Budget(c.totalCpu, c.totalMem, c.maxConcurrent)));
  }

  /** Popping the only queued task. */
  lemma PopTakes(c: Config, row: Task, t: Task, claims: map<Uid, SchedulerId>, started: multiset<Uid>)
    requires c.maxConcurrent > 0 && t.cpuLimit == 0 && t.memoryLimit == 0
    ensures var before := Alone(row, Listing(t), Ticking(multiset{}, c, c.maxConcurrent), multiset{}, multiset{},
            claims, started);
            CanStep(before, SPop("a", t)) && After(c, before, SPop("a", t))
              == Alone(row, TaskQueue.EMPTY, Ticking(multiset{}, c, c.maxConcurrent - 1), multiset{Holding("a", t)},
                       multiset{}, claims, started)
  {
  }

  lemma CreateQueues(c: Config)
    ensures CanStep(NO_CLAIMS, SHandler("a", ECreate(TASK)))
    ensures After(c, NO_CLAIMS, SHandler("a", ECreate(TASK)))
         == Alone(TASK, Listing(TASK), Between(multiset{}), multiset{}, multiset{}, map[], multiset{})
  {
  }

  lemma ClaimWins(c: Config, mine: Private)
    ensures var before := Alone(TASK, TaskQueue.EMPTY, mine, multiset{Holding("a", TASK)}, multiset{}, map[],
            multiset{});
            CanStep(before, SClaim(Holding("a", TASK))) && After(c, before, SClaim(Holding("a", TASK)))
              == Alone(TASK, TaskQueue.EMPTY, mine, multiset{}, multiset{Holding("a", TASK)}, CLAIMED, multiset{})
  {
  }

  lemma ClaimLoses(c: Config, mine: Private)
    ensures var before := Alone(RETRY, TaskQueue.EMPTY, mine, multiset{Holding("a", RETRY)}, multiset{}, CLAIMED, RAN);
            CanStep(before, SClaim(Holding("a", RETRY))) && After(c, before, SClaim(Holding("a", RETRY)))
              == Alone(RETRY, TaskQueue.EMPTY, mine, multiset{}, multiset{}, CLAIMED, RAN).(dropped := {"u"})
  {
  }

  /** The claimed task `t` waits to be started. */
  function AboutToStart(t: Task, b: Budget): Cluster {
    Alone(t, TaskQueue.EMPTY, Private(multiset{}, map[], multiset{}, Some(b)), multiset{}, multiset{Holding("a", t)},
          CLAIMED, multiset{})
  }

  lemma FirstDispatch(t: Task, b: Budget)
    requires t.uid == "u" && t.status == Created
    ensures var run := RunningCopy(t, None, 0);
            Dispatch(View(AboutToStart(t, b), "a"), t, None, 0)
              == State(map["u" := run], TaskQueue.EMPTY, multiset{run}, map[], multiset{}, Some(b), RAN)
  {
    DispatchSucceeds(View(AboutToStart(t, b), "a"), t, None, 0);
    hide Dispatch, RunningCopy;
  }

  lemma StartRuns(c: Config, t: Task, b: Budget)
    requires t.uid == "u" && t.status == Created
    ensures var run := RunningCopy(t, None, 0);
            CanStep(AboutToStart(t, b), SStart(Holding("a", t), None, 0))
            && After(c, AboutToStart(t, b), SStart(Holding("a", t), None, 0))
              == Alone(run, TaskQueue.EMPTY, Private(multiset{run}, map[], multiset{}, Some(b)), multiset{}, multiset{},
                       CLAIMED, RAN)
  {
    hide Dispatch, RunningCopy;
    FirstDispatch(t, b);
    var next := Dispatch(View(AboutToStart(t, b), "a"), t, None, 0);
    assert "u" in next.started && "u" !in AboutToStart(t, b).started;
  }

  lemma TickCloses(c: Config, t: Task, b: Budget)
    ensures var before := Alone(t, TaskQueue.EMPTY, Private(multiset{t}, map[], multiset{}, Some(b)), multiset{},
                                multiset{}, CLAIMED, RAN);
            CanStep(before, SHandler("a", ETickEnd)) && After(c, before, SHandler("a", ETickEnd))
              == Alone(t, TaskQueue.EMPTY, Between(multiset{t}), multiset{}, multiset{}, CLAIMED, RAN)
  {
  }

  lemma FailureResult(s: State, run: Task, retry: Task)
    requires s.rows == map["u" := run] && s.queue == TaskQueue.EMPTY && s.locals == multiset{run}
    requires run.uid == "u" && run.CanRetry() && run.stdout == run.stderr == ""
    requires retry == Retried(run.(finishedAt := Some(0)), "exit status 1")
    ensures LocalDone(s, run, ERROR_RESULT, 0)
         == s.(rows := map["u" := retry], queue := Queue(multiset{}, [], multiset{retry}), locals := multiset{})
  {
  }

  lemma FailureDelays(c: Config, run: Task, retry: Task)
    requires run.uid == "u" && run.CanRetry() && run.stdout == run.stderr == ""
    requires retry == Retried(run.(finishedAt := Some(0)), "exit status 1")
    ensures var before := Alone(run, TaskQueue.EMPTY, Between(multiset{run}), multiset{}, multiset{}, CLAIMED, RAN);
            var fails := SHandler("a", ELocalDone(run, ERROR_RESULT, 0));
            CanStep(before, fails) && After(c, before, fails)
              == Alone(retry, Queue(multiset{}, [], multiset{retry}), Between(multiset{}), multiset{}, multiset{},
                       CLAIMED, RAN)
  {
    var before := Alone(run, TaskQueue.EMPTY, Between(multiset{run}), multiset{}, multiset{}, CLAIMED, RAN);
    FailureResult(View(before, "a"), run, retry);
    hide LocalDone, Retried;
  }

  lemma RetryComesDue(c: Config, t: Task)
    ensures var before := Alone(t, Queue(multiset{}, [], multiset{t}), Between(multiset{}), multiset{},
                                multiset{}, CLAIMED, RAN);
            var due := SHandler("a", ERelease([t]));
            CanStep(before, due) && After(c, before, due)
              == Alone(t, Listing(t), Between(multiset{}), multiset{}, multiset{}, CLAIMED, RAN)
  {
    assert multiset([t]) == multiset{t};
    assert multiset{t} - multiset{t} == multiset{};
  }

  /** A tick opens and pops the only queued task. */
  lemma Popped(c: Config, sts: seq<Step>, t: Task, claims: map<Uid, SchedulerId>, started: multiset<Uid>)
    returns (more: seq<Step>)
    requires c.maxConcurrent > 0 && t.status != Running && t.cpuLimit == 0 && t.memoryLimit == 0
    requires CanSteps(c, NO_CLAIMS, sts)
    requires Steps(c, NO_CLAIMS, sts) == Alone(t, Listing(t), Between(multiset{}), multiset{}, multiset{}, claims,
             started)
    ensures CanSteps(c, NO_CLAIMS, more)
    ensures Steps(c, NO_CLAIMS, more)
         == Alone(t, TaskQueue.EMPTY, Ticking(multiset{}, c, c.maxConcurrent - 1), multiset{Holding("a", t)},
                  multiset{}, claims, started)
  {
    hide CanStep, After, Alone;
    var open := TickOpens(c, t, t, claims, started);
    more := Then(c, sts, open);
    PopTakes(c, t, t, claims, started);
    more := Then(c, more, SPop("a", t));
  }

  /** The default of three retries does not help: under its own surviving claim a task
      that failed once is popped, loses the compare-and-swap, and is gone.  Its row stays
      Pending, and no queue, scheduler or agent holds a copy of it. */
  lemma RetryIsLost(c: Config) returns (sts: seq<Step>)
    requires c.maxConcurrent > 0
    ensures CanSteps(c, NO_CLAIMS, sts)
    ensures Steps(c, NO_CLAIMS, sts)
         == Alone(RETRY, TaskQueue.EMPTY, Ticking(multiset{}, c, c.maxConcurrent - 1), multiset{}, multiset{}, CLAIMED,
             RAN)
              .(dropped := {"u"})
    ensures RETRY.status == Pending && RETRY.retryCount == 1 < RETRY.maxRetries == 3
  {
    hide CanStep, After, Alone;
    var mine := Ticking(multiset{}, c, c.maxConcurrent - 1);
    CreateQueues(c);
    sts := Then(c, [], SHandler("a", ECreate(TASK)));
    sts := Popped(c, sts, TASK, map[], multiset{});
    ClaimWins(c, mine);
    assert Alone(TASK, TaskQueue.EMPTY, mine, multiset{}, multiset{Holding("a", TASK)}, CLAIMED, multiset{})
        == AboutToStart(TASK, mine.tick.value);
    sts := Then(c, sts, SClaim(Holding("a", TASK)));
    StartRuns(c, TASK, mine.tick.value);
    sts := Then(c, sts, SStart(Holding("a", TASK), None, 0));
    TickCloses(c, RUN, mine.tick.value);
    sts := Then(c, sts, SHandler("a", ETickEnd));
    FailureDelays(c, RUN, RETRY);
    sts := Then(c, sts, SHandler("a", ELocalDone(RUN, ERROR_RESULT, 0)));
    RetryComesDue(c, RETRY);
    sts := Then(c, sts, SHandler("a", ERelease([RETRY])));
    sts := Popped(c, sts, RETRY, CLAIMED, RAN);
    ClaimLoses(c, mine);
    sts := Then(c, sts, SClaim(Holding("a", RETRY)));
  }
}
