/** The mover of the Redis queue against everything else (internal/queue/redis.go,
    moveDueDelayed): ZRANGEBYSCORE, LPUSH and ZREM are separate commands, so pops, pushes
    and the movers of other processes run between them. */
module MoverRaces {
  import opened Tasks
  import opened RedisQueues
  import TaskQueue

  /** A pass under way: `rest` is still to be moved, and `pushed` says that its first uid
      has been sent to the pending list and not yet taken out of the delayed set. */
  datatype Mover = Idle | Moving(rest: seq<Uid>, pushed: bool)

  type MoverId = nat

  /** What has happened to a uid since the latest LPUSH of a mover: nothing that matters, a
      pop, a pop followed by a delayed push, or a pop after which nobody has the task. */
  datatype Touch = Untouched | Taken | Returned | Dropped

  /** `known` holds the uids that were ever pushed, `out` those whose last push is older
      than their last pop: some caller has the task in hand. */
  datatype World = World(db: Redis, movers: map<MoverId, Mover>, touch: map<Uid, Touch>, out: set<Uid>, known: set<Uid>)

  const START := World(EMPTY, map[], map[], {}, {})

  function MoverOf(w: World, m: MoverId): Mover {
    if m in w.movers then w.movers[m] else Idle
  }

  function TouchOf(w: World, u: Uid): Touch {
    if u in w.touch then w.touch[u] else Untouched
  }

  /** Mover `m` is between its LPUSH and its ZREM of `u`. */
  predicate InGap(w: World, m: MoverId, u: Uid) {
    var mover := MoverOf(w, m);
    mover.Moving? && mover.pushed && mover.rest != [] && mover.rest[0] == u
  }

  datatype Step =
    | SQuery(m: MoverId, now: real, uids: seq<Uid>)
    | SLPush(m: MoverId, outcome: Outcome)
    | SZRem(m: MoverId, outcome: Outcome)
    | SStop(m: MoverId)
    | SPop(result: Option<Task>, after: Redis)
    | SPopUnanswered(uid: Uid, after: Redis)
    | SPush(task: Task)
    | SPushPriority(task: Task)
    | SPushDelayed(task: Task, delay: real, now: real)
    | SPushFails(task: Task, stored: Outcome, queued: Outcome)
    | SExpire(uid: Uid)

  /** SPopUnanswered takes an entry and hands out no task: its record has expired, or a
      command fails after the entry is gone.  SPushFails queues nothing; a push that queued
      the task and lost its reply is one that succeeds, as its caller gives up the task
      either way. */
  ghost predicate CanStep(w: World, st: Step) {
    match st
    case SQuery(m, now, us) =>
      && MoverOf(w, m).Idle? && NoDuplicates(us)
      && forall u :: u in us <==> u in w.db.delayed && IsDue(w.db.delayed[u], now)
    case SLPush(m, _) => var v := MoverOf(w, m); v.Moving? && v.rest != [] && !v.pushed
    case SZRem(m, _) => var v := MoverOf(w, m); v.Moving? && v.rest != [] && v.pushed
    case SPop(r, db') => PopOutcome(w.db, r, db') && (r.None? ==> db' == w.db)
    case SPopUnanswered(u, db') => Chosen(w.db, u, db')
    case SPushFails(_, stored, queued) => stored != Done || queued == Refused
    case _ => true
  }

  function SetMover(w: World, m: MoverId, v: Mover): World {
    w.(movers := w.movers[m := if v.Moving? && v.rest == [] then Idle else v])
  }

  function LPush(w: World, m: MoverId, o: Outcome): World
    requires MoverOf(w, m).Moving? && MoverOf(w, m).rest != []
  {
    var rest := MoverOf(w, m).rest;
    var moved := SetMover(w, m, if o == Done then Moving(rest, true) else Moving(rest[1..], false));
    if o == Refused then moved
    else moved.(db := w.db.(pending := [rest[0]] + w.db.pending), touch := w.touch[rest[0] := Untouched])
  }

  function ZRem(w: World, m: MoverId, o: Outcome): World
    requires MoverOf(w, m).Moving? && MoverOf(w, m).rest != []
  {
    var rest := MoverOf(w, m).rest;
    var moved := SetMover(w, m, Moving(rest[1..], false));
    if o == Refused then moved else moved.(db := w.db.(delayed := w.db.delayed - {rest[0]}))
  }

  function Pop(w: World, r: Option<Task>, db': Redis): World {
    if r.None? then w.(db := db')
    else w.(db := db', touch := w.touch[r.value.uid := Taken], out := w.out + {r.value.uid})
  }

  function Swallow(w: World, u: Uid, db': Redis): World {
    w.(db := db', touch := w.touch[u := if u in w.out then Taken else Dropped])
  }

  /** A push ends the caller's hold on the task. */
  function Given(w: World, u: Uid, touch: Touch, db': Redis): World {
    w.(db := db', touch := w.touch[u := touch], out := w.out - {u}, known := w.known + {u})
  }

  /** So does a push that fails: its caller logs the error and goes on. */
  function PushFails(w: World, t: Task, stored: Outcome, queued: Outcome): World {
    var touch := if TouchOf(w, t.uid) == Taken then Dropped else TouchOf(w, t.uid);
    Given(w, t.uid, touch, Attempt(w.db, t, w.db, stored, queued))
  }

  /** What a delayed push makes of what has happened to the uid. */
  function PutBack(touch: Touch): Touch {
    if touch == Untouched then Untouched else Returned
  }

  function After(w: World, st: Step): World
    requires CanStep(w, st)
  {
    match st
    case SQuery(m, _, us) => SetMover(w, m, Moving(us, false))
    case SLPush(m, o) => LPush(w, m, o)
    case SZRem(m, o) => ZRem(w, m, o)
    case SStop(m) => SetMover(w, m, Idle)
    case SPop(r, db') => Pop(w, r, db')
    case SPopUnanswered(u, db') => Swallow(w, u, db')
    case SPush(t) => Given(w, t.uid, Untouched, AfterPush(w.db, t))
    case SPushPriority(t) => Given(w, t.uid, Untouched, AfterPushPriority(w.db, t))
    case SPushDelayed(t, delay, now) =>
      Given(w, t.uid, PutBack(TouchOf(w, t.uid)), AfterPushDelayed(w.db, t, delay, now))
    case SPushFails(t, stored, queued) => PushFails(w, t, stored, queued)
    case SExpire(u) => w.(db := w.db.(records := w.db.records - {u}))
  }

  ghost predicate CanSteps(w: World, sts: seq<Step>)
    decreases |sts|
  {
    sts == [] || (CanStep(w, sts[0]) && CanSteps(After(w, sts[0]), sts[1..]))
  }

  ghost function Steps(w: World, sts: seq<Step>): World
    requires CanSteps(w, sts)
    decreases |sts|
  {
    if sts == [] then w else Steps(After(w, sts[0]), sts[1..])
  }

  // ----- When a task is lost -----

  predicate Ready(db: Redis, u: Uid) {
    u in db.pending || u in db.priority
  }

  /** No queue holds the uid, and no caller has the task. */
  predicate Lost(w: World, u: Uid) {
    u in w.known && !Queued(w.db, u) && u !in w.out
  }

  ghost predicate OwnRecords(db: Redis) {
    forall u :: u in db.records ==> db.records[u].uid == u
  }

  /** What a mover is about to push was pushed before, and what it has pushed is ready until
      a pop takes it. */
  ghost predicate GoodMover(w: World, v: Mover) {
    v.Moving? ==>
      && (forall u :: u in v.rest ==> u in w.known)
      && (v.pushed ==> v.rest != [] && (TouchOf(w, v.rest[0]) == Untouched ==> Ready(w.db, v.rest[0])))
  }

  ghost predicate Sound(w: World) {
    && OwnRecords(w.db)
    && (forall u :: Queued(w.db, u) || u in w.out || TouchOf(w, u) != Untouched ==> u in w.known)
    && (forall u :: TouchOf(w, u) == Taken ==> u in w.out)
    && (forall u :: TouchOf(w, u) == Returned || TouchOf(w, u) == Dropped ==> u !in w.out)
    && (forall m :: m in w.movers ==> GoodMover(w, w.movers[m]))
  }

  /** What a pop takes from the server. */
  ghost predicate Takes(db: Redis, u: Uid, db': Redis) {
    && Ready(db, u) && db'.delayed == db.delayed && db'.records == db.records
    && (|| (u in db.priority && db'.pending == db.pending && db'.priority == db.priority - {u})
        || (db'.priority == db.priority && db.pending != [] && db.pending[|db.pending| - 1] == u
            && db'.pending == db.pending[..|db.pending| - 1]))
  }

  lemma PopTakes(db: Redis, r: Option<Task>, db': Redis)
    requires OwnRecords(db) && PopOutcome(db, r, db') && (r.None? ==> db' == db)
    ensures r.Some? ==> Takes(db, r.value.uid, db')
  {
    if db.priority != map[] {
      var u :| MinScore(db.priority, u) && db' == db.(priority := db.priority - {u})
               && r == if u in db.records then Some(db.records[u]) else None;
    }
  }

  lemma ChosenTakes(db: Redis, u: Uid, db': Redis)
    requires Chosen(db, u, db')
    ensures Takes(db, u, db')
  {
  }

  lemma OnlyOneLeaves(db: Redis, u: Uid, db': Redis)
    requires Takes(db, u, db')
    ensures forall v :: v != u ==> (Ready(db', v) <==> Ready(db, v)) && (Queued(db', v) <==> Queued(db, v))
    ensures Queued(db', u) ==> Queued(db, u)
  {
    if db.pending != [] {
      var n := |db.pending| - 1;
      assert db.pending == db.pending[..n] + [db.pending[n]];
    }
  }

  lemma PopKeepsSound(w: World, r: Option<Task>, db': Redis)
    requires Sound(w) && CanStep(w, SPop(r, db'))
    ensures Sound(Pop(w, r, db'))
  {
    PopTakes(w.db, r, db');
    hide PopOutcome;
    if r.Some? {
      OnlyOneLeaves(w.db, r.value.uid, db');
      assert db'.records == w.db.records && Queued(w.db, r.value.uid);
      hide Takes;
      LessKeepsSoundPopped(w, r.value, db');
    }
  }

  lemma LessKeepsSoundPopped(w: World, t: Task, db': Redis)
    requires Sound(w) && db'.records == w.db.records && Queued(w.db, t.uid)
    requires forall v :: v != t.uid ==> (Ready(db', v) <==> Ready(w.db, v)) && (Queued(db', v) <==> Queued(w.db, v))
    ensures Sound(Pop(w, Some(t), db'))
  {
    hide Ready, Queued;
  }

  lemma SwallowKeepsSound(w: World, u: Uid, db': Redis)
    requires Sound(w) && Chosen(w.db, u, db')
    ensures Sound(Swallow(w, u, db'))
  {
    ChosenTakes(w.db, u, db');
    OnlyOneLeaves(w.db, u, db');
    hide Chosen;
    assert db'.records == w.db.records && Queued(w.db, u);
    hide Takes;
    LessKeepsSound(w, u, db');
  }

  lemma LessKeepsSound(w: World, u: Uid, db': Redis)
    requires Sound(w) && db'.records == w.db.records && Queued(w.db, u)
    requires forall v :: v != u ==> (Ready(db', v) <==> Ready(w.db, v)) && (Queued(db', v) <==> Queued(w.db, v))
    ensures Sound(Swallow(w, u, db'))
  {
    hide Ready, Queued;
  }

  /** A push makes the uid ready, or puts it into the delayed set. */
  ghost predicate Gives(db: Redis, u: Uid, db': Redis) {
    && OwnRecords(db')
    && (forall v :: v != u ==> (Ready(db', v) <==> Ready(db, v)) && (Queued(db', v) <==> Queued(db, v)))
    && Queued(db', u) && (Ready(db, u) ==> Ready(db', u))
  }

  lemma PushGives(db: Redis, t: Task)
    requires OwnRecords(db)
    ensures Gives(db, t.uid, AfterPush(db, t)) && Ready(AfterPush(db, t), t.uid)
    ensures Gives(db, t.uid, AfterPushPriority(db, t)) && Ready(AfterPushPriority(db, t), t.uid)
  {
  }

  lemma DelayedPushGives(db: Redis, t: Task, delay: real, now: real)
    requires OwnRecords(db)
    ensures Gives(db, t.uid, AfterPushDelayed(db, t, delay, now))
    ensures Ready(AfterPushDelayed(db, t, delay, now), t.uid) == Ready(db, t.uid)
  {
    hide Seconds;
  }

  lemma GivenKeepsSound(w: World, u: Uid, touch: Touch, db': Redis)
    requires Sound(w) && Gives(w.db, u, db') && (touch == Untouched || touch == Returned)
    requires touch == Untouched && TouchOf(w, u) != Untouched ==> Ready(db', u)
    ensures Sound(Given(w, u, touch, db'))
  {
  }

  lemma LPushKeepsSound(w: World, m: MoverId, o: Outcome)
    requires Sound(w) && CanStep(w, SLPush(m, o))
    ensures Sound(LPush(w, m, o))
  {
  }

  lemma ZRemKeepsSound(w: World, m: MoverId, o: Outcome)
    requires Sound(w) && CanStep(w, SZRem(m, o))
    ensures Sound(ZRem(w, m, o))
  {
  }

  lemma StepKeepsSound(w: World, st: Step)
    requires Sound(w) && CanStep(w, st)
    ensures Sound(After(w, st))
  {
    match st {
      case SQuery(m, now, us) => QueryKeepsSound(w, m, now, us);
      case SLPush(m, o) => LPushKeepsSound(w, m, o);
      case SZRem(m, o) => ZRemKeepsSound(w, m, o);
      case SStop(m) =>
      case SPop(r, db') => PopKeepsSound(w, r, db');
      case SPopUnanswered(u, db') => SwallowKeepsSound(w, u, db');
      case SPushFails(t, stored, queued) => FailedPushKeepsSound(w, t, stored, queued);
      case SExpire(u) =>
      case SPush(t) =>
        PushGives(w.db, t);
        GivenKeepsSound(w, t.uid, Untouched, AfterPush(w.db, t));
      case SPushPriority(t) =>
        PushGives(w.db, t);
        GivenKeepsSound(w, t.uid, Untouched, AfterPushPriority(w.db, t));
      case SPushDelayed(t, delay, now) => DelayedPushKeepsSound(w, t, delay, now);
    }
  }

  lemma FailedPushKeepsSound(w: World, t: Task, stored: Outcome, queued: Outcome)
    requires Sound(w) && CanStep(w, SPushFails(t, stored, queued))
    ensures Sound(PushFails(w, t, stored, queued))
  {
  }

  lemma QueryKeepsSound(w: World, m: MoverId, now: real, us: seq<Uid>)
    requires Sound(w) && CanStep(w, SQuery(m, now, us))
    ensures Sound(After(w, SQuery(m, now, us)))
  {
    assert forall u :: u in us ==> Queued(w.db, u);
    hide IsDue;
  }

  lemma DelayedPushKeepsSound(w: World, t: Task, delay: real, now: real)
    requires Sound(w)
    ensures Sound(After(w, SPushDelayed(t, delay, now)))
  {
    DelayedPushGives(w.db, t, delay, now);
    GivenKeepsSound(w, t.uid, PutBack(TouchOf(w, t.uid)), AfterPushDelayed(w.db, t, delay, now));
    hide Sound, Seconds;
  }

  lemma {:induction false} StepsKeepSound(w: World, sts: seq<Step>)
    requires Sound(w) && CanSteps(w, sts)
    ensures Sound(Steps(w, sts))
    decreases |sts|
  {
    hide Sound, CanStep, After;
    if sts != [] {
      StepKeepsSound(w, sts[0]);
      StepsKeepSound(After(w, sts[0]), sts[1..]);
    }
  }

  /** The step is a ZREM of `u` that takes effect. */
  predicate Removes(w: World, st: Step, u: Uid) {
    st.SZRem? && st.outcome != Refused && InGap(w, st.m, u)
  }

  lemma PopLosesNothing(w: World, r: Option<Task>, db': Redis, u: Uid)
    requires Sound(w) && CanStep(w, SPop(r, db')) && !Lost(w, u)
    ensures !Lost(Pop(w, r, db'), u)
  {
    PopTakes(w.db, r, db');
    if r.Some? { OnlyOneLeaves(w.db, r.value.uid, db'); }
    hide PopOutcome;
  }

  lemma PushLosesNothing(w: World, v: Uid, touch: Touch, db': Redis, u: Uid)
    requires Gives(w.db, v, db') && !Lost(w, u)
    ensures !Lost(Given(w, v, touch, db'), u)
  {
  }

  lemma SwallowLoses(w: World, v: Uid, db': Redis, u: Uid)
    requires Sound(w) && Chosen(w.db, v, db') && !Lost(w, u)
    ensures Lost(Swallow(w, v, db'), u) <==> v == u && u !in w.out && !Queued(db', u)
  {
    ChosenTakes(w.db, v, db');
    OnlyOneLeaves(w.db, v, db');
    hide Chosen, Takes;
  }

  lemma FailedPushLoses(w: World, t: Task, stored: Outcome, queued: Outcome, u: Uid)
    requires CanStep(w, SPushFails(t, stored, queued)) && !Lost(w, u)
    ensures Lost(PushFails(w, t, stored, queued), u) <==> t.uid == u && !Queued(w.db, u)
  {
  }

  /** The caller that last popped the uid, if any, no longer has the task. */
  predicate PassedOn(touch: Touch) {
    touch == Returned || touch == Dropped
  }

  lemma ZRemLoses(w: World, st: Step, u: Uid)
    requires Sound(w) && CanStep(w, st) && !Lost(w, u) && st.SZRem?
    ensures Lost(After(w, st), u) <==> Removes(w, st, u) && PassedOn(TouchOf(w, u)) && !Ready(w.db, u)
  {
    var v := MoverOf(w, st.m);
    assert GoodMover(w, w.movers[st.m]);
  }

  /** The three ways to lose a task: a ZREM in the wrong moment, a pop that hands out nothing,
      a push that queues nothing. */
  ghost predicate Loses(w: World, st: Step, u: Uid) {
    match st
    case SZRem(_, _) => Removes(w, st, u) && PassedOn(TouchOf(w, u)) && !Ready(w.db, u)
    case SPopUnanswered(v, db') => v == u && u !in w.out && !Queued(db', u)
    case SPushFails(t, _, _) => t.uid == u && !Queued(w.db, u)
    case _ => false
  }

  lemma LostByStep(w: World, st: Step, u: Uid)
    requires Sound(w) && CanStep(w, st) && !Lost(w, u)
    ensures Lost(After(w, st), u) <==> Loses(w, st, u)
  {
    match st {
      case SZRem(_, _) => ZRemLoses(w, st, u);
      case SPop(r, db') => PopLosesNothing(w, r, db', u);
      case SPopUnanswered(v, db') => SwallowLoses(w, v, db', u);
      case SPushFails(t, stored, queued) => FailedPushLoses(w, t, stored, queued, u);
      case SPush(t) =>
        PushGives(w.db, t);
        PushLosesNothing(w, t.uid, Untouched, AfterPush(w.db, t), u);
      case SPushPriority(t) =>
        PushGives(w.db, t);
        PushLosesNothing(w, t.uid, Untouched, AfterPushPriority(w.db, t), u);
      case SPushDelayed(t, delay, now) =>
        DelayedPushGives(w.db, t, delay, now);
        PushLosesNothing(w, t.uid, PutBack(TouchOf(w, t.uid)), AfterPushDelayed(w.db, t, delay, now), u);
        hide Seconds;
      case _ =>
    }
  }

  /** Main result, for every run, with any commands failing and any records expiring: a task
      is lost exactly in one of three ways.  A ZREM of its uid takes effect when the uid was
      popped since the latest LPUSH of it and is then put back into the delayed set or in
      nobody's hand, and no other ready entry of it exists.  A pop takes its last entry
      without an answer.  Or a push of it fails while nothing of it is queued. */
  lemma LostExactly(sts: seq<Step>, st: Step, u: Uid)
    requires CanSteps(START, sts) && CanStep(Steps(START, sts), st) && !Lost(Steps(START, sts), u)
    ensures Lost(After(Steps(START, sts), st), u) <==> Loses(Steps(START, sts), st, u)
  {
    StepsKeepSound(START, sts);
    LostByStep(Steps(START, sts), st, u);
  }

  predicate Pops(st: Step, u: Uid) {
    (st.SPop? && st.result.Some? && st.result.value.uid == u) || (st.SPopUnanswered? && st.uid == u)
  }

  /** Queued, and ready wherever a mover has pushed it and still has to send its ZREM. */
  ghost predicate Safe(w: World, u: Uid) {
    Queued(w.db, u) && forall m :: m in w.movers && InGap(w, m, u) ==> Ready(w.db, u)
  }

  lemma PopKeepsSafe(w: World, r: Option<Task>, db': Redis, u: Uid)
    requires Sound(w) && Safe(w, u) && CanStep(w, SPop(r, db')) && !Pops(SPop(r, db'), u)
    ensures Safe(Pop(w, r, db'), u)
  {
    PopTakes(w.db, r, db');
    if r.Some? { OnlyOneLeaves(w.db, r.value.uid, db'); }
    hide PopOutcome, Sound, OwnRecords, Takes;
  }

  lemma SwallowKeepsSafe(w: World, v: Uid, db': Redis, u: Uid)
    requires Safe(w, u) && Chosen(w.db, v, db') && v != u
    ensures Safe(Swallow(w, v, db'), u)
  {
    ChosenTakes(w.db, v, db');
    OnlyOneLeaves(w.db, v, db');
    hide Chosen, Takes;
  }

  lemma GivenKeepsSafe(w: World, v: Uid, touch: Touch, db': Redis, u: Uid)
    requires Gives(w.db, v, db') && Safe(w, u)
    ensures Safe(Given(w, v, touch, db'), u)
  {
  }

  lemma MoverKeepsSafe(w: World, st: Step, u: Uid)
    requires Safe(w, u) && CanStep(w, st) && (st.SLPush? || st.SZRem? || st.SQuery? || st.SStop?)
    ensures Safe(After(w, st), u)
  {
    hide IsDue;
  }

  lemma StepKeepsSafe(w: World, st: Step, u: Uid)
    requires Sound(w) && Safe(w, u) && CanStep(w, st) && !Pops(st, u)
    ensures Safe(After(w, st), u)
  {
    match st {
      case SPop(r, db') => PopKeepsSafe(w, r, db', u);
      case SPopUnanswered(v, db') => SwallowKeepsSafe(w, v, db', u);
      case SPushFails(_, _, _) =>
      case SExpire(_) =>
      case SPush(t) =>
        PushGives(w.db, t);
        GivenKeepsSafe(w, t.uid, Untouched, AfterPush(w.db, t), u);
      case SPushPriority(t) =>
        PushGives(w.db, t);
        GivenKeepsSafe(w, t.uid, Untouched, AfterPushPriority(w.db, t), u);
      case SPushDelayed(t, delay, now) => DelayedPushKeepsSafe(w, t, delay, now, u);
      case _ => MoverKeepsSafe(w, st, u);
    }
  }

  lemma DelayedPushKeepsSafe(w: World, t: Task, delay: real, now: real, u: Uid)
    requires Sound(w) && Safe(w, u)
    ensures Safe(After(w, SPushDelayed(t, delay, now)), u)
  {
    DelayedPushGives(w.db, t, delay, now);
    hide Safe, Seconds;
    GivenKeepsSafe(w, t.uid, PutBack(TouchOf(w, t.uid)), AfterPushDelayed(w.db, t, delay, now), u);
  }

  lemma {:induction false} UnpoppedStaysSafe(w: World, sts: seq<Step>, u: Uid)
    requires Sound(w) && Safe(w, u) && CanSteps(w, sts) && forall i :: 0 <= i < |sts| ==> !Pops(sts[i], u)
    ensures Safe(Steps(w, sts), u)
    decreases |sts|
  {
    hide Sound, CanStep, After, Safe;
    if sts != [] {
      StepKeepsSound(w, sts[0]);
      StepKeepsSafe(w, sts[0], u);
      UnpoppedStaysSafe(After(w, sts[0]), sts[1..], u);
    }
  }

  /** Main result, for any number of movers and any failing commands: a uid that is
      delayed, with no mover between its LPUSH and its ZREM, stays queued as long as it is
      not popped. */
  lemma UnpoppedStaysQueued(before: seq<Step>, sts: seq<Step>, u: Uid)
    requires CanSteps(START, before)
    requires var w := Steps(START, before);
             u in w.db.delayed && (forall m :: m in w.movers ==> !InGap(w, m, u)) && CanSteps(w, sts)
    requires forall i :: 0 <= i < |sts| ==> !Pops(sts[i], u)
    ensures Queued(Steps(Steps(START, before), sts).db, u)
  {
    StepsKeepSound(START, before);
    UnpoppedStaysSafe(Steps(START, before), sts, u);
  }

  // ----- When a delayed task is listed -----

  lemma StepKeepsScore(w: World, st: Step, u: Uid)
    requires CanStep(w, st) && !(st.SPushDelayed? && st.task.uid == u) && u in After(w, st).db.delayed
    ensures u in w.db.delayed && After(w, st).db.delayed[u] == w.db.delayed[u]
  {
    hide Seconds, IsDue;
  }

  lemma {:induction false} StepsKeepScore(w: World, sts: seq<Step>, u: Uid)
    requires CanSteps(w, sts) && u in Steps(w, sts).db.delayed
    requires forall i :: 0 <= i < |sts| ==> !(sts[i].SPushDelayed? && sts[i].task.uid == u)
    ensures u in w.db.delayed && Steps(w, sts).db.delayed[u] == w.db.delayed[u]
    decreases |sts|
  {
    hide CanStep, After;
    if sts != [] {
      StepsKeepScore(After(w, sts[0]), sts[1..], u);
      StepKeepsScore(w, sts[0], u);
    }
  }

  /** Main result: a task that was pushed with a delay, and was not pushed with one again
      since, is listed by a mover's query only when less than a second of the delay is left;
      and while it is still delayed every query one second past the delay lists it. */
  lemma DelayIsKept(w: World, t: Task, delay: real, pushed: real, sts: seq<Step>, m: MoverId, now: real, uids: seq<Uid>)
    requires delay >= 0.0 && pushed >= 0.0
    requires CanSteps(After(w, SPushDelayed(t, delay, pushed)), sts)
    requires forall i :: 0 <= i < |sts| ==> !(sts[i].SPushDelayed? && sts[i].task.uid == t.uid)
    requires CanStep(Steps(After(w, SPushDelayed(t, delay, pushed)), sts), SQuery(m, now, uids))
    ensures t.uid in uids ==> now > pushed + delay - 1.0
    ensures now >= pushed + delay + 1.0 && t.uid in Steps(After(w, SPushDelayed(t, delay, pushed)), sts).db.delayed ==>
              t.uid in uids
  {
    var begin := After(w, SPushDelayed(t, delay, pushed));
    TruncationIsUnderASecond(w.db, t, delay, pushed, now);
    assert begin.db == AfterPushDelayed(w.db, t, delay, pushed);
    hide AfterPushDelayed, IsDue, After;
    if t.uid in Steps(begin, sts).db.delayed { StepsKeepScore(begin, sts, t.uid); }
    hide Steps, CanSteps;
  }

  // ----- One mover, no failures, and callers that push only what they have in hand -----

  predicate InHand(w: World, u: Uid) {
    u in w.out || u !in w.known
  }

  predicate Orderly(w: World, st: Step) {
    match st
    case SQuery(m, _, _) => m == 0
    case SLPush(m, o) => m == 0 && o == Done
    case SZRem(m, o) => m == 0 && o == Done
    case SStop(_) | SPopUnanswered(_, _) | SPushFails(_, _, _) | SExpire(_) => false
    case SPop(_, _) => true
    case _ => InHand(w, st.task.uid)
  }

  ghost predicate OrderlySteps(w: World, sts: seq<Step>)
    requires CanSteps(w, sts)
    decreases |sts|
  {
    sts == [] || (Orderly(w, sts[0]) && OrderlySteps(After(w, sts[0]), sts[1..]))
  }

  /** Each uid has one entry, except in the gap between LPUSH and ZREM. */
  ghost predicate Tidy(w: World) {
    && w.movers.Keys <= {0}
    && NoDuplicates(w.db.pending) && (forall u :: u in w.db.pending ==> u !in w.db.priority)
    && (forall u :: u in w.db.delayed && Ready(w.db, u) ==> InGap(w, 0, u))
    && (forall u :: u in w.out ==> !Ready(w.db, u) && (u in w.db.delayed ==> InGap(w, 0, u)))
    && (forall u :: InGap(w, 0, u) && TouchOf(w, u) != Untouched ==> !Ready(w.db, u))
    && (forall u :: u in w.touch ==> w.touch[u] != Dropped)
    && (MoverOf(w, 0).Moving? ==>
          NoDuplicates(MoverOf(w, 0).rest) && forall u :: u in MoverOf(w, 0).rest ==> u in w.db.delayed)
  }

  lemma InHandIsNotReady(w: World, u: Uid)
    requires Sound(w) && Tidy(w) && InHand(w, u)
    ensures !Ready(w.db, u) && (u in w.db.delayed ==> InGap(w, 0, u))
  {
  }

  lemma ReadyPushKeepsTidy(w: World, u: Uid, db': Redis)
    requires Tidy(w) && !Ready(w.db, u) && (u in w.db.delayed ==> InGap(w, 0, u)) && db'.delayed == w.db.delayed
    requires NoDuplicates(db'.pending) && forall v :: v in db'.pending ==> v !in db'.priority
    requires forall v :: v != u ==> (Ready(db', v) <==> Ready(w.db, v))
    ensures Tidy(Given(w, u, Untouched, db'))
  {
  }

  lemma PushKeepsTidy(w: World, t: Task)
    requires Sound(w) && Tidy(w) && InHand(w, t.uid)
    ensures Tidy(Given(w, t.uid, Untouched, AfterPush(w.db, t)))
    ensures Tidy(Given(w, t.uid, Untouched, AfterPushPriority(w.db, t)))
  {
    InHandIsNotReady(w, t.uid);
    hide Sound, Given, InGap;
    ReadyPushKeepsTidy(w, t.uid, AfterPush(w.db, t));
    ReadyPushKeepsTidy(w, t.uid, AfterPushPriority(w.db, t));
  }

  lemma DelayedPushKeepsTidy(w: World, t: Task, delay: real, now: real)
    requires Sound(w) && Tidy(w) && InHand(w, t.uid)
    ensures Tidy(After(w, SPushDelayed(t, delay, now)))
  {
    hide Seconds;
  }

  lemma FrontKeepsRest(pending: seq<Uid>)
    requires pending != [] && NoDuplicates(pending)
    ensures var n := |pending| - 1;
            NoDuplicates(pending[..n]) && pending[n] !in pending[..n] && forall u :: u in pending[..n] ==> u in pending
  {
  }

  lemma SingleEntryLeaves(db: Redis, u: Uid, db': Redis)
    requires Takes(db, u, db') && NoDuplicates(db.pending) && forall v :: v in db.pending ==> v !in db.priority
    ensures NoDuplicates(db'.pending) && (forall v :: v in db'.pending ==> v !in db'.priority)
    ensures !Ready(db', u) && db'.delayed == db.delayed && Ready(db, u)
  {
    if db.pending != [] { FrontKeepsRest(db.pending); }
  }

  lemma TakenKeepsTidy(w: World, t: Task, db': Redis)
    requires Tidy(w) && Ready(w.db, t.uid) && !Ready(db', t.uid) && db'.delayed == w.db.delayed
    requires NoDuplicates(db'.pending) && forall v :: v in db'.pending ==> v !in db'.priority
    requires forall v :: v != t.uid ==> (Ready(db', v) <==> Ready(w.db, v))
    ensures Tidy(Pop(w, Some(t), db'))
  {
  }

  lemma PopKeepsTidy(w: World, r: Option<Task>, db': Redis)
    requires Sound(w) && Tidy(w) && CanStep(w, SPop(r, db'))
    ensures Tidy(Pop(w, r, db'))
  {
    PopTakes(w.db, r, db');
    hide PopOutcome, Sound, InGap;
    if r.Some? {
      OnlyOneLeaves(w.db, r.value.uid, db');
      SingleEntryLeaves(w.db, r.value.uid, db');
      hide Takes, Ready;
      TakenKeepsTidy(w, r.value, db');
    }
  }

  lemma LPushKeepsTidy(w: World)
    requires Sound(w) && Tidy(w) && CanStep(w, SLPush(0, Done))
    ensures Tidy(After(w, SLPush(0, Done)))
  {
    var u := MoverOf(w, 0).rest[0];
    assert forall v :: !InGap(w, 0, v);
    assert u in w.db.delayed && !Ready(w.db, u) && u !in w.out;
    hide OwnRecords, GoodMover;
  }

  lemma ZRemKeepsTidy(w: World)
    requires Sound(w) && Tidy(w) && CanStep(w, SZRem(0, Done))
    ensures Tidy(After(w, SZRem(0, Done)))
  {
  }

  lemma QueryKeepsTidy(w: World, now: real, us: seq<Uid>)
    requires Tidy(w) && CanStep(w, SQuery(0, now, us))
    ensures Tidy(After(w, SQuery(0, now, us)))
  {
    hide IsDue;
  }

  lemma StepKeepsTidy(w: World, st: Step)
    requires Sound(w) && Tidy(w) && CanStep(w, st) && Orderly(w, st)
    ensures Tidy(After(w, st))
  {
    hide Sound, Tidy;
    match st {
      case SQuery(m, now, us) => QueryKeepsTidy(w, now, us);
      case SLPush(m, o) => LPushKeepsTidy(w);
      case SZRem(m, o) => ZRemKeepsTidy(w);
      case SStop(_) | SPopUnanswered(_, _) | SPushFails(_, _, _) | SExpire(_) =>
      case SPop(r, db') => PopKeepsTidy(w, r, db');
      case SPush(t) => PushKeepsTidy(w, t);
      case SPushPriority(t) => PushKeepsTidy(w, t);
      case SPushDelayed(t, delay, now) => DelayedPushKeepsTidy(w, t, delay, now);
    }
  }

  lemma {:induction false} StepsKeepTidy(w: World, sts: seq<Step>)
    requires Sound(w) && Tidy(w) && CanSteps(w, sts) && OrderlySteps(w, sts)
    ensures Sound(Steps(w, sts)) && Tidy(Steps(w, sts))
    decreases |sts|
  {
    hide Sound, Tidy, CanStep, After, Orderly;
    if sts != [] {
      StepKeepsSound(w, sts[0]);
      StepKeepsTidy(w, sts[0]);
      StepsKeepTidy(After(w, sts[0]), sts[1..]);
    }
  }

  /** Main result: with one mover, no failing command, no expired record, and callers that push only a task
      they have in hand, a task is lost exactly when it is popped and put back into the
      delayed set between the LPUSH and the ZREM of its uid. */
  lemma LostIffReturnedInGap(sts: seq<Step>, st: Step, u: Uid)
    requires CanSteps(START, sts) && OrderlySteps(START, sts) && CanStep(Steps(START, sts), st)
    requires Orderly(Steps(START, sts), st) && !Lost(Steps(START, sts), u)
    ensures var w := Steps(START, sts); Lost(After(w, st), u) <==> Removes(w, st, u) && TouchOf(w, u) == Returned
  {
    StepsKeepTidy(START, sts);
    LostByStep(Steps(START, sts), st, u);
    hide Lost;
  }

  // ----- Refinement -----

  /** The server without the delayed entry whose uid has been sent to the pending list. */
  function Settled(w: World): Redis {
    var v := MoverOf(w, 0);
    if v.Moving? && v.pushed && v.rest != [] then w.db.(delayed := w.db.delayed - {v.rest[0]}) else w.db
  }

  /** No task is put back into the delayed set in the gap of its uid. */
  predicate Clear(w: World, st: Step) {
    st.SPushDelayed? ==> !InGap(w, 0, st.task.uid)
  }

  /** What a step does to the abstract queue: a move takes effect at its LPUSH. */
  ghost predicate QueueStep(w: World, st: Step, q: TaskQueue.Queue, q': TaskQueue.Queue) {
    match st
    case SLPush(m, _) =>
      && MoverOf(w, m).Moving? && MoverOf(w, m).rest != [] && MoverOf(w, m).rest[0] in w.db.records
      && var t := w.db.records[MoverOf(w, m).rest[0]]; t in q.delayed && q' == TaskQueue.Release(q, [t])
    case SPop(None, _) => TaskQueue.NothingReady(q) && q' == q
    case SPop(Some(t), _) => TaskQueue.CanPop(q, t) && q' == TaskQueue.AfterPop(q, t)
    case SPush(t) => q' == TaskQueue.Push(q, t)
    case SPushPriority(t) => q' == TaskQueue.PushPriority(q, t)
    case SPushDelayed(t, _, _) => q' == TaskQueue.PushDelayed(q, t)
    case _ => q' == q
  }

  ghost predicate StepRefines(w: World, st: Step)
    requires CanStep(w, st)
  {
    && Recorded(Settled(w)) && Recorded(Settled(After(w, st)))
    && QueueStep(w, st, Contents(Settled(w)), Contents(Settled(After(w, st))))
  }

  lemma LPushRefines(w: World)
    requires Sound(w) && Tidy(w) && Recorded(Settled(w)) && CanStep(w, SLPush(0, Done))
    ensures StepRefines(w, SLPush(0, Done))
  {
    var u := MoverOf(w, 0).rest[0];
    assert Settled(w) == w.db && u in w.db.delayed;
    MoveOneRefines(w.db, u);
    assert Settled(After(w, SLPush(0, Done))) == w.db.(pending := [u] + w.db.pending, delayed := w.db.delayed - {u});
    hide Contents, Recorded, Sound, Tidy;
    assert w.db.records[u] in multiset([w.db.records[u]]);
  }

  lemma ZRemRefines(w: World)
    requires Recorded(Settled(w)) && CanStep(w, SZRem(0, Done))
    ensures StepRefines(w, SZRem(0, Done))
  {
    assert Settled(After(w, SZRem(0, Done))) == Settled(w);
    hide Contents, Recorded;
  }

  lemma PopStepRefines(w: World, r: Option<Task>, db': Redis)
    requires Recorded(Settled(w)) && CanStep(w, SPop(r, db'))
    ensures StepRefines(w, SPop(r, db'))
  {
    var after := Settled(After(w, SPop(r, db')));
    SettledPop(w, r, db');
    hide PopOutcome, Settled, Contents, Recorded, After, CanStep;
    PopRefines(Settled(w), r, after);
  }

  lemma SettledPop(w: World, r: Option<Task>, db': Redis)
    requires CanStep(w, SPop(r, db'))
    ensures PopOutcome(Settled(w), r, Settled(After(w, SPop(r, db'))))
  {
  }

  lemma PushStepRefines(w: World, t: Task)
    requires Sound(w) && Tidy(w) && InHand(w, t.uid) && Recorded(Settled(w))
    ensures StepRefines(w, SPush(t))
  {
    InHandIsNotReady(w, t.uid);
    assert !Queued(Settled(w), t.uid);
    assert Settled(After(w, SPush(t))) == AfterPush(Settled(w), t);
    hide Sound, Tidy, Contents, Recorded;
    PushRefines(Settled(w), t);
  }

  lemma PriorityPushStepRefines(w: World, t: Task)
    requires Sound(w) && Tidy(w) && InHand(w, t.uid) && Recorded(Settled(w))
    ensures StepRefines(w, SPushPriority(t))
  {
    InHandIsNotReady(w, t.uid);
    assert !Queued(Settled(w), t.uid);
    assert Settled(After(w, SPushPriority(t))) == AfterPushPriority(Settled(w), t);
    hide Sound, Tidy, Contents, Recorded;
    PushPriorityRefines(Settled(w), t);
  }

  lemma DelayedPushStepRefines(w: World, t: Task, delay: real, now: real)
    requires Sound(w) && Tidy(w) && InHand(w, t.uid) && Recorded(Settled(w)) && !InGap(w, 0, t.uid)
    ensures StepRefines(w, SPushDelayed(t, delay, now))
  {
    hide Seconds;
    InHandIsNotReady(w, t.uid);
    assert !Queued(Settled(w), t.uid);
    hide Sound, Tidy, Contents, Recorded;
    assert Settled(After(w, SPushDelayed(t, delay, now))) == AfterPushDelayed(Settled(w), t, delay, now);
    PushDelayedRefines(Settled(w), t, delay, now);
  }

  lemma EveryStepRefines(w: World, st: Step)
    requires Sound(w) && Tidy(w) && Recorded(Settled(w)) && CanStep(w, st) && Orderly(w, st) && Clear(w, st)
    ensures StepRefines(w, st)
  {
    hide Sound, Tidy, Recorded, Contents;
    match st {
      case SQuery(m, now, us) => assert Settled(After(w, st)) == Settled(w);
      case SLPush(m, o) => LPushRefines(w);
      case SZRem(m, o) => ZRemRefines(w);
      case SStop(_) | SPopUnanswered(_, _) | SPushFails(_, _, _) | SExpire(_) =>
      case SPop(r, db') => PopStepRefines(w, r, db');
      case SPush(t) => PushStepRefines(w, t);
      case SPushPriority(t) => PriorityPushStepRefines(w, t);
      case SPushDelayed(t, delay, now) => DelayedPushStepRefines(w, t, delay, now);
    }
  }

  ghost predicate ClearSteps(w: World, sts: seq<Step>)
    requires CanSteps(w, sts)
    decreases |sts|
  {
    sts == [] || (Clear(w, sts[0]) && ClearSteps(After(w, sts[0]), sts[1..]))
  }

  ghost predicate RunRefines(w: World, sts: seq<Step>)
    requires CanSteps(w, sts)
    decreases |sts|
  {
    sts == [] || (StepRefines(w, sts[0]) && RunRefines(After(w, sts[0]), sts[1..]))
  }

  lemma {:induction false} StepsRefine(w: World, sts: seq<Step>)
    requires Sound(w) && Tidy(w) && Recorded(Settled(w))
    requires CanSteps(w, sts) && OrderlySteps(w, sts) && ClearSteps(w, sts)
    ensures RunRefines(w, sts)
    decreases |sts|
  {
    hide Sound, Tidy, CanStep, After, Orderly, Clear, Recorded, Contents, QueueStep;
    if sts != [] {
      StepKeepsSound(w, sts[0]);
      StepKeepsTidy(w, sts[0]);
      EveryStepRefines(w, sts[0]);
      StepsRefine(After(w, sts[0]), sts[1..]);
    }
  }

  /** Main result: the mover's commands interleaved with pops and pushes, the Redis queue
      is, step by step, the abstract queue, as long as no task is put back into the
      delayed set in the gap of its uid. */
  lemma InterleavedRunsRefine(sts: seq<Step>)
    requires CanSteps(START, sts) && OrderlySteps(START, sts) && ClearSteps(START, sts)
    ensures Contents(Settled(START)) == TaskQueue.EMPTY && RunRefines(START, sts)
  {
    assert Settled(START) == EMPTY && Recorded(EMPTY);
    StepsRefine(START, sts);
  }

  // ----- A task that is lost -----

  lemma StepFirst(w: World, st: Step, sts: seq<Step>)
    requires CanStep(w, st) && CanSteps(After(w, st), sts)
    ensures CanSteps(w, [st] + sts) && Steps(w, [st] + sts) == Steps(After(w, st), sts)
  {
    hide CanStep, After;
    assert ([st] + sts)[1..] == sts;
  }

  /** Whenever the mover has just sent a uid to an otherwise empty ready queue, the tick
      that pops its task and puts it off before the ZREM loses it: the delayed push is
      undone by the ZREM. */
  lemma PutOffInGapIsLost(w: World, t: Task, delay: real, now: real) returns (sts: seq<Step>)
    requires Sound(w) && InGap(w, 0, t.uid) && w.db.priority == map[] && w.db.pending == [t.uid]
    requires t.uid in w.db.records && w.db.records[t.uid] == t && t.uid in w.known
    ensures CanSteps(w, sts) && |sts| == 3 && Lost(Steps(w, sts), t.uid)
    ensures sts[0].SPop? && sts[0].result == Some(t) && sts[1] == SPushDelayed(t, delay, now)
            && sts[2] == SZRem(0, Done)
  {
    hide Seconds, Sound;
    var pop := SPop(Some(t), w.db.(pending := []));
    assert w.db.pending[..|w.db.pending| - 1] == [];
    var popped := After(w, pop);
    var put := SPushDelayed(t, delay, now);
    var back := After(popped, put);
    assert InGap(back, 0, t.uid) && CanStep(back, SZRem(0, Done));
    var gone := After(back, SZRem(0, Done));
    assert Lost(gone, t.uid);
    StepFirst(back, SZRem(0, Done), []);
    StepFirst(popped, put, [SZRem(0, Done)]);
    StepFirst(w, pop, [put] + [SZRem(0, Done)]);
    sts := [pop] + ([put] + [SZRem(0, Done)]);
  }

  /** Such a moment is reached by every task: one that is pushed with a delay, comes due
      and is moved. */
  lemma EveryTaskCanReachTheGap(t: Task) returns (sts: seq<Step>)
    ensures CanSteps(START, sts) && OrderlySteps(START, sts)
    ensures var w := Steps(START, sts);
            && InGap(w, 0, t.uid) && w.db.priority == map[] && w.db.pending == [t.uid]
            && t.uid in w.db.records && w.db.records[t.uid] == t && t.uid in w.known
  {
    var u := t.uid;
    var push, query, move := SPushDelayed(t, 0.0, 0.0), SQuery(0, 0.0, [u]), SLPush(0, Done);
    var w1 := After(START, push);
    assert w1.db.delayed == map[u := 0.0];
    hide Seconds;
    assert CanStep(w1, query);
    var w2 := After(w1, query);
    assert CanStep(w2, move);
    StepFirst(w2, move, []);
    StepFirst(w1, query, [move]);
    StepFirst(START, push, [query] + [move]);
    sts := [push] + ([query] + [move]);
    assert ([push] + ([query] + [move]))[1..] == [query] + [move] && ([query] + [move])[1..] == [move];
    assert [move][1..] == [] && OrderlySteps(w2, [move]) && OrderlySteps(w1, [query] + [move]);
  }
}
