/** The delays that the retries of a run really ask for: where the wrap-around of the
    backoff cannot be reached (internal/scheduler/scheduler.go, failTask). */
module RetryDelays {
  import opened Tasks
  import opened TaskQueue
  import opened Lifecycle
  import Backoff

  /** A copy that a handler could retry: a row, a queue entry, or an executor's copy. */
  ghost predicate IsCopy(s: State, t: Task) {
    t in Copies(s.queue) || t in s.locals || t in s.rows.Values
  }

  /** What failTask passes to the queue when it retries `t`. */
  function NextDelay(t: Task): int
    requires t.retryCount >= 0
  {
    Backoff.RetryDelay(t.retryIntervalSec, t.retryCount + 1)
  }

  lemma CopiesAgree(s: State, t: Task)
    requires WellFormed(s) && IsCopy(s, t)
    ensures GoodCopy(s.rows, t)
  {
    if t in s.rows.Values {
      var u :| u in s.rows && s.rows[u] == t;
    }
  }

  /** Main result: when the delay of a task's last retry fits into 63 bits, every retry of
      any copy of it, in every run, waits exactly the intended time. */
  lemma EveryDelayIsIdeal(c: Config, es: seq<Event>, t: Task)
    requires ValidRun(c, INITIAL, es) && IsCopy(Run(c, INITIAL, es), t) && t.CanRetry()
    requires t.uid in Run(c, INITIAL, es).rows
    requires var row := Run(c, INITIAL, es).rows[t.uid];
             row.retryIntervalSec >= 0 && row.maxRetries >= 0 && Backoff.Fits(row.retryIntervalSec, row.maxRetries)
    ensures var row := Run(c, INITIAL, es).rows[t.uid];
            && row.retryIntervalSec == t.retryIntervalSec && 0 <= t.retryCount < row.maxRetries
            && NextDelay(t) == Backoff.Ideal(row.retryIntervalSec, t.retryCount + 1)
  {
    InitiallySound();
    RunKeepsWellFormed(c, INITIAL, es);
    CopiesAgree(Run(c, INITIAL, es), t);
    hide WellFormed, IsCopy, Run, ValidRun, Backoff.Fits, Backoff.Ideal, Backoff.RetryDelay;
    FewerRetriesAreIdeal(t.retryIntervalSec, t.retryCount + 1, t.maxRetries);
  }

  lemma InitiallySound()
    ensures WellFormed(INITIAL)
  {
  }

  lemma FewerRetriesAreIdeal(interval: nat, k: nat, n: nat)
    requires k <= n && Backoff.Fits(interval, n)
    ensures Backoff.RetryDelay(interval, k) == Backoff.Ideal(interval, k)
  {
    Backoff.Pow2Grows(k, n);
    Backoff.MulGrows(interval * SECOND, Backoff.Pow2(k), Backoff.Pow2(n));
    Backoff.DelayIsIdeal(interval, k);
  }

  /** The defaults of a submission: three retries, one second.  Then the three delays are
      two, four and eight seconds, and the wrap-around is never reached. */
  lemma ServiceDelaysAreIdeal(c: Config, es: seq<Event>, t: Task)
    requires ValidRun(c, INITIAL, es) && IsCopy(Run(c, INITIAL, es), t) && t.CanRetry()
    requires t.uid in Run(c, INITIAL, es).rows
    requires var row := Run(c, INITIAL, es).rows[t.uid]; row.retryIntervalSec == 1 && row.maxRetries == 3
    ensures 0 <= t.retryCount <= 2 && NextDelay(t) == [2, 4, 8][t.retryCount] * SECOND
  {
    Backoff.OneSecondFits(3);
    EveryDelayIsIdeal(c, es, t);
    hide Run, ValidRun, IsCopy;
    assert Backoff.Pow2(1) == 2 && Backoff.Pow2(2) == 4 && Backoff.Pow2(3) == 8;
  }
}
