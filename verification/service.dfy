/** Submitting, cancelling and re-running tasks (internal/service/task_service.go). */
module Submissions {
  import opened Tasks
  import opened Dedup
  import opened InMemQueues
  import opened Scheduling
  import DispatchBound
  import Lifecycle
  import Outcomes
  import TaskQueue

  /** The optional fields of a request that are absent are None, "" or not positive. */
  datatype Request = Request(
    name: string,
    command: string,
    workdir: string,
    env: Option<map<string, string>>,
    cpuLimit: int,
    memoryLimit: int,
    timeoutSec: int,
    priority: int,
    nodeSelector: Option<map<string, string>>
  )

  function OrElse<T>(o: Option<T>, fallback: T): T {
    if o.Some? then o.value else fallback
  }

  function AtLeastZero(n: int): nat {
    if n > 0 then n else 0
  }

  function RequestedJob(req: Request): Job {
    Job(req.name, req.command, if req.workdir == "" then "/tmp" else req.workdir, OrElse(req.env, map[]),
        OrElse(req.nodeSelector, map[]))
  }

  /** The task a request stands for. */
  function Requested(req: Request, uid: Uid): Task {
    NewTask(uid, req.name, req.command).(
      job := RequestedJob(req),
      cpuLimit := AtLeastZero(req.cpuLimit),
      memoryLimit := AtLeastZero(req.memoryLimit),
      timeoutSec := if req.timeoutSec > 0 then req.timeoutSec else 300,
      priority := AtLeastZero(req.priority))
  }

  /** The request that RerunTask builds from a row. */
  function Again(t: Task): Request {
    Request(t.job.name, t.job.command, t.job.workdir, Some(t.job.env), t.cpuLimit, t.memoryLimit, t.timeoutSec,
            t.priority, Some(t.job.nodeSelector))
  }

  /** Re-running a task submits the original request once more, whatever run of the
      scheduler has gone over it since. */
  lemma RerunRepeatsTheRequest(c: Lifecycle.Config, es: seq<Lifecycle.Event>, req: Request, uid: Uid, newUid: Uid)
    requires Lifecycle.ValidRun(c, Lifecycle.INITIAL, es) && Lifecycle.ECreate(Requested(req, uid)) in es
    ensures uid in Lifecycle.Run(c, Lifecycle.INITIAL, es).rows
    ensures Requested(Again(Lifecycle.Run(c, Lifecycle.INITIAL, es).rows[uid]), newUid) == Requested(req, newUid)
  {
    DispatchBound.InitiallyWithinBound(uid);
    DispatchBound.SubmissionIsKept(c, Lifecycle.INITIAL, es, Requested(req, uid));
    hide Lifecycle.Run, Lifecycle.ValidRun;
  }

  /** Which servers answer during a submission. */
  datatype Servers = Servers(redis: bool, store: bool, queue: bool)

  /** A submission whose push failed. */
  function OnlyStored(s: Lifecycle.State, t: Task): Lifecycle.State {
    s.(rows := s.rows[t.uid := t])
  }

  class TaskService {
    const store: TaskStore
    const queue: InMemQueue?
    const hasRedis: bool
    /** The digest of an idempotency key. */
    const hash: string -> string
    var marks: map<string, int>
    /** The submissions that reached Redis. */
    ghost var history: seq<Submission>

    ghost predicate Valid()
      reads this, queue
    {
      marks == MarksAfter(history) && (queue != null ==> queue.Valid())
    }

    /** The table and the queue are those of the lifecycle state `s`. */
    ghost predicate Shows(s: Lifecycle.State)
      reads this, store, queue
    {
      store.rows == s.rows && (queue != null ==> queue.Contents() == s.queue)
    }

    constructor (store: TaskStore, queue: InMemQueue?, hasRedis: bool, hash: string -> string)
      requires queue != null ==> queue.Valid()
      ensures Valid() && this.store == store && this.queue == queue && this.hasRedis == hasRedis && this.hash == hash
      ensures history == []
    {
      this.store, this.queue, this.hasRedis, this.hash := store, queue, hasRedis, hash;
      marks, history := map[], [];
    }

    /** A new task with the fields of the request that are given, three retries, one second
        apart before the backoff, five minutes of time, and everything else at its default. */
    method BuildTask(req: Request, uid: Uid) returns (task: Task)
      ensures task == Requested(req, uid)
      ensures task.uid == uid && task.job.name == req.name && task.job.command == req.command
      ensures task.job.workdir == if req.workdir == "" then "/tmp" else req.workdir
      ensures task.job.env == (if req.env.None? then map[] else req.env.value)
      ensures task.job.nodeSelector == (if req.nodeSelector.None? then map[] else req.nodeSelector.value)
      ensures task.cpuLimit == (if req.cpuLimit > 0 then req.cpuLimit else 0)
      ensures task.memoryLimit == (if req.memoryLimit > 0 then req.memoryLimit else 0)
      ensures task.timeoutSec == (if req.timeoutSec > 0 then req.timeoutSec else 300)
      ensures task.priority == (if req.priority > 0 then req.priority else 0)
      ensures task.maxRetries == 3 && task.retryCount == 0 && task.retryIntervalSec == 1
      ensures task.status == Created && task.startedAt == task.finishedAt == None && task.exitCode == None
    {
      task := NewTask(uid, req.name, req.command);
      if req.workdir != "" { task := task.(job := task.job.(workdir := req.workdir)); }
      if req.env.Some? { task := task.(job := task.job.(env := req.env.value)); }
      if req.cpuLimit > 0 { task := task.(cpuLimit := req.cpuLimit); }
      if req.memoryLimit > 0 { task := task.(memoryLimit := req.memoryLimit); }
      if req.timeoutSec > 0 { task := task.(timeoutSec := req.timeoutSec); }
      if req.priority > 0 { task := task.(priority := req.priority); }
      if req.nodeSelector.Some? { task := task.(job := task.job.(nodeSelector := req.nodeSelector.value)); }
    }

    /** SETNX on the mark of `key`. */
    method SetMark(key: string, now: int) returns (isNew: bool)
      requires Valid()
      modifies this`marks, this`history
      ensures Valid() && history == old(history) + [Submission(key, now)]
      ensures isNew == Accepted(history, |old(history)|)
    {
      MarksSnoc(history, Submission(key, now));
      hide MarksAfter, Accepted, IsHeap;
      isNew := !(key in marks && now < marks[key]);
      if isNew { marks := marks[key := now + DEDUP_WINDOW]; }
      history := history + [Submission(key, now)];
    }

    /** `uid` is a generated identifier; `up` says which servers answer.  A submission that
        is refused or cannot be inserted leaves table and queue alone, but keeps its mark; a
        task that cannot be queued is stored and returned all the same. */
    method CreateTask(req: Request, uid: Uid, up: Servers, now: int, ghost s: Lifecycle.State)
      returns (r: Result<Task>, ghost text: string)
      requires Valid() && Shows(s)
      modifies this`marks, this`history, store, queue
      ensures Valid() && IsPreimage(RequestedJob(req), text)
      ensures history == if hasRedis && up.redis then old(history) + [Submission(hash(text), now)] else old(history)
      ensures r.Err? <==> (hasRedis && up.redis && !Accepted(history, |old(history)|)) || !up.store || uid in s.rows
      ensures r.Err? ==> Shows(s)
      ensures r.Ok? ==> r.value == Requested(req, uid) && Lifecycle.Enabled(s, Lifecycle.ECreate(r.value))
      ensures r.Ok? ==> Shows(if up.queue then Lifecycle.Create(s, r.value) else OnlyStored(s, r.value))
      ensures r.Ok? && queue != null && up.queue ==>
                var q := queue.Contents();
                && q.delayed == s.queue.delayed
                && (if r.value.priority > 0
                    then q.prio == s.queue.prio + multiset{r.value} && q.ready == s.queue.ready
                    else q.prio == s.queue.prio && q.ready == s.queue.ready + [r.value])
    {
      var task := BuildTask(req, uid);
      var hashed := Preimage(task.job);
      text := hashed;
      if hasRedis && up.redis {
        var isNew := SetMark(hash(hashed), now);
        if !isNew { return Err, text; }
      }
      if !up.store { return Err, text; }
      var inserted := store.Create(task);
      if !inserted { return Err, text; }
      if queue != null && up.queue {
        if task.priority > 0 {
          queue.PushPriority(task);
        } else {
          queue.Push(task);
        }
      }
      Outcomes.CreateOutcome(s, task);
      hide Lifecycle.Create, Requested, IsPreimage, Accepted, MarksAfter;
      r := Ok(task);
    }

    /** Cancels a task that has not ended; `published` says whether the scheduler could be
        told.  The row is cancelled even when it could not, and an error is returned. */
    method CancelTask(uid: Uid, published: bool, ghost s: Lifecycle.State) returns (ok: bool)
      requires Shows(s) && forall u :: u in s.rows ==> s.rows[u].uid == u
      modifies store
      ensures Shows(Lifecycle.Cancel(s, uid))
      ensures ok <==> uid in s.rows && !s.rows[uid].status.IsTerminal() && (hasRedis ==> published)
      ensures ok ==> store.rows == s.rows[uid := s.rows[uid].(status := Canceled)]
    {
      var task := store.GetByUid(uid);
      if task.Err? { return false; }
      if task.value.status.IsTerminal() { return false; }
      match task.value.TransitionTo(Canceled) {
        case Err => return false;
        case Ok(t) => store.Update(t);
      }
      ok := !hasRedis || published;
    }

    /** Submits the request of an existing task again. */
    method RerunTask(uid: Uid, newUid: Uid, up: Servers, now: int, ghost s: Lifecycle.State)
      returns (r: Result<Task>, ghost text: string)
      requires Valid() && Shows(s)
      modifies this`marks, this`history, store, queue
      ensures Valid()
      ensures uid !in s.rows ==> r.Err? && history == old(history) && Shows(s)
      ensures uid in s.rows && hasRedis && up.redis ==> history == old(history) + [Submission(hash(text), now)]
      ensures uid in s.rows ==> IsPreimage(RequestedJob(Again(s.rows[uid])), text)
      ensures uid in s.rows ==>
                (r.Err? <==>
                   (hasRedis && up.redis && !Accepted(history, |old(history)|)) || !up.store || newUid in s.rows)
      ensures r.Ok? ==> r.value == Requested(Again(s.rows[uid]), newUid)
      ensures r.Ok? ==> Shows(if up.queue then Lifecycle.Create(s, r.value) else OnlyStored(s, r.value))
    {
      text := "";
      var original := store.GetByUid(uid);
      if original.Err? { return Err, text; }
      var t := original.value;
      var req := Request(t.job.name, t.job.command, t.job.workdir, Some(t.job.env), t.cpuLimit, t.memoryLimit,
                         t.timeoutSec, t.priority, Some(t.job.nodeSelector));
      r, text := CreateTask(req, newUid, up, now, s);
    }
  }

  /** Whenever Redis answered both times, a re-run less than five minutes after its
      original was accepted is refused: the duplicate check cannot tell them apart. */
  lemma EarlyRerunIsRefused(hash: string -> string, c: Lifecycle.Config, es: seq<Lifecycle.Event>,
                            req: Request, uid: Uid, texts: (string, string), subs: seq<Submission>, i: nat, n: nat)
    requires Lifecycle.ValidRun(c, Lifecycle.INITIAL, es) && Lifecycle.ECreate(Requested(req, uid)) in es
    requires i < n < |subs| && InTimeOrder(subs)
    requires IsPreimage(RequestedJob(req), texts.0) && subs[i].key == hash(texts.0) && Accepted(subs, i)
    requires uid in Lifecycle.Run(c, Lifecycle.INITIAL, es).rows
    requires IsPreimage(RequestedJob(Again(Lifecycle.Run(c, Lifecycle.INITIAL, es).rows[uid])), texts.1)
    requires subs[n].key == hash(texts.1) && subs[n].time - subs[i].time < 300 * SECOND
    ensures !Accepted(subs, n)
  {
    RerunRepeatsTheRequest(c, es, req, uid, uid);
    var row := Lifecycle.Run(c, Lifecycle.INITIAL, es).rows[uid];
    hide Lifecycle.Run, Lifecycle.ValidRun, IsPreimage, Accepted;
    assert RequestedJob(Again(row)) == RequestedJob(req) by {
      assert Requested(req, uid).job == RequestedJob(req) && Requested(Again(row), uid).job == RequestedJob(Again(row));
    }
    PreimageIsUnique(RequestedJob(req), RequestedJob(Again(row)), texts.0, texts.1);
    RefusedIffRecent(subs, n);
    assert Recent(subs, i, n);
  }
}
