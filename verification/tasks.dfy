/** The task record and its status machine (internal/model/task.go).  A task is a
    value: a database row, a queue entry and a running goroutine each hold their
    own copy of it. */
module Tasks {

  type Uid = string
  type NodeId = string

  /** Points in time and durations are whole nanoseconds. */
  const SECOND: int := 1_000_000_000

  datatype Option<+T> = None | Some(value: T)

  datatype Result<+T> = Ok(value: T) | Err

  datatype Status = Created | Pending | Running | Success | Failed | Canceled {
    predicate IsTerminal() {
      this == Success || this == Failed || this == Canceled
    }
  }

  predicate ValidTransition(source: Status, target: Status) {
    match source
    case Created => target == Pending || target == Canceled
    case Pending => target == Running || target == Canceled
    case Running => target == Success || target == Failed || target == Canceled
    case _ => false
  }

  /** The part of a task that says what to run and where; no handler changes it. */
  datatype Job = Job(
    name: string,
    command: string,
    workdir: string,
    env: map<string, string>,
    nodeSelector: map<string, string>
  )

  datatype Task = Task(
    uid: Uid,
    job: Job,
    cpuLimit: int,
    memoryLimit: int,
    timeoutSec: int,
    priority: int,
    maxRetries: int,
    retryCount: int,
    retryIntervalSec: int,
    assignedNodeId: NodeId,
    status: Status,
    exitCode: Option<int>,
    stdout: string,
    stderr: string,
    errorMessage: string,
    startedAt: Option<int>,
    finishedAt: Option<int>
  ) {
    predicate CanRetry() {
      retryCount < maxRetries
    }

    function TransitionTo(target: Status): Result<Task> {
      if ValidTransition(status, target) then Ok(this.(status := target)) else Err
    }
  }

  /** Copies of one submission: no handler changes these fields. */
  predicate SameSubmission(a: Task, b: Task) {
    && a.job == b.job && a.cpuLimit == b.cpuLimit && a.memoryLimit == b.memoryLimit
    && a.timeoutSec == b.timeoutSec && a.priority == b.priority
    && a.maxRetries == b.maxRetries && a.retryIntervalSec == b.retryIntervalSec
  }

  /** What an executor or a remote agent reports about one run. */
  datatype TaskResult = TaskResult(exitCode: int, stdout: string, stderr: string, timedOut: bool, error: Option<string>)

  const TIMED_OUT := "task timed out"

  /** The field defaults of a task that has just been submitted. */
  function NewTask(uid: Uid, name: string, command: string): Task {
    Task(uid, Job(name, command, "/tmp", map[], map[]), 0, 0, 300, 0, 3, 0, 1, "", Created, None, "", "", "", None,
        None)
  }

  /** Applies a list of transitions in order, stopping at the first refusal. */
  function TransitionAll(t: Task, targets: seq<Status>): Result<Task>
    decreases |targets|
  {
    if targets == [] then Ok(t)
    else
      match t.TransitionTo(targets[0])
      case Err => Err
      case Ok(next) => TransitionAll(next, targets[1..])
  }

  function StepsLeft(s: Status): nat {
    match s
    case Created => 3
    case Pending => 2
    case Running => 1
    case _ => 0
  }

  /** The transition table alone keeps terminal tasks terminal and has no cycle:
      no task can take more than three transitions, and it can take three only
      through Pending and Running to a terminal status. */
  lemma {:induction false} TransitionsRunOut(t: Task, targets: seq<Status>)
    requires TransitionAll(t, targets).Ok?
    ensures |targets| <= StepsLeft(t.status)
    ensures t.status.IsTerminal() ==> targets == []
    ensures forall i :: 0 <= i < |targets| ==>
              var before := if i == 0 then t.status else targets[i - 1];
              && (targets[i] == Pending ==> before == Created) && (targets[i] == Running ==> before == Pending)
              && (targets[i] == Success || targets[i] == Failed ==> before == Running) && targets[i] != Created
    ensures |targets| == 3 ==> targets[0] == Pending && targets[1] == Running && targets[2].IsTerminal()
    ensures TransitionAll(t, targets).value == if targets == [] then t else t.(status := targets[|targets| - 1])
    decreases |targets|
  {
    if targets != [] {
      var next := t.TransitionTo(targets[0]).value;
      TransitionsRunOut(next, targets[1..]);
    }
  }
}
