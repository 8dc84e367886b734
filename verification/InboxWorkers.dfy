/** The counters of each worker against the calls that concern it. */
module InboxWorkers {
  import opened Common
  import opened InboxModel
  import opened InboxRuns

  datatype Counter = Claims | Completions | Failures

  function Value(w: Worker, k: Counter): nat {
    match k
    case Claims => w.claimed
    case Completions => w.completed
    case Failures => w.failed
  }

  function ValueOf(workers: map<string, Worker>, id: string, k: Counter): nat {
    if id in workers then Value(workers[id], k) else 0
  }

  /** The stale tasks in the list that this worker held. */
  function LostBy(tasks: TaskTable, failed: seq<TaskRef>, id: string): nat {
    if failed == [] then 0
    else LostBy(tasks, Init(failed), id)
         + if Last(failed) in tasks && tasks[Last(failed)].worker == Some(id) then 1 else 0
  }

  function CounterOf(status: Status): Option<Counter> {
    match status
    case Completed => Some(Completions)
    case Failed => Some(Failures)
    case _ => None
  }

  /** Only a worker with a row and a non-empty id is credited. */
  predicate Known(workers: map<string, Worker>, id: string) {
    id != "" && id in workers
  }

  /** What a call adds to a counter of a worker. */
  function Credit(t: Tables, op: Op, id: string, k: Counter): nat {
    match op
    case ClaimOp(_, _, worker, _, _, _, _) => if worker == id && k == Claims then |Handed(t, op)| else 0
    case MarkOp(trace, keys, _, acker, _) =>
      if acker == Some(id) && Known(t.workers, id) && CounterOf(op.Outcome()) == Some(k) then HitCount(t.tasks, trace, KeptKeys(keys)) else 0
    case SweepOp(_, _, staleAfter, maxAttempts, rows, now) =>
      if Known(t.workers, id) && k == Failures
      then LostBy(t.tasks, FailedRows(t.tasks, rows, staleAfter, maxAttempts, now), id) else 0
    case _ => 0
  }

  function Credits(ops: seq<Op>, id: string, k: Counter): nat {
    if ops == [] then 0 else Credits(Init(ops), id, k) + Credit(Exec(Init(ops)), Last(ops), id, k)
  }

  lemma AckCounts(workers: map<string, Worker>, acker: Option<string>, status: Status, count: nat, now: int, id: string, k: Counter)
    ensures CreditWorker(workers, acker, status, count, now).Keys == workers.Keys
    ensures ValueOf(CreditWorker(workers, acker, status, count, now), id, k)
         == ValueOf(workers, id, k) + if acker == Some(id) && Known(workers, id) && CounterOf(status) == Some(k) then count else 0
  {
  }

  lemma {:induction false} BlameCounts(workers: map<string, Worker>, tasks: TaskTable, failed: seq<TaskRef>, now: int, id: string, k: Counter)
    requires forall r :: r in failed ==> r in tasks
    ensures BlameWorkers(workers, tasks, failed, now).Keys == workers.Keys
    ensures ValueOf(BlameWorkers(workers, tasks, failed, now), id, k)
         == ValueOf(workers, id, k) + if Known(workers, id) && k == Failures then LostBy(tasks, failed, id) else 0
  {
    if failed != [] {
      BlameCounts(workers, tasks, Init(failed), now, id, k);
      AckCounts(BlameWorkers(workers, tasks, Init(failed), now), KnownWorker(tasks[Last(failed)]), Failed, 1, now, id, k);
    }
  }

  lemma {:induction false} FailedRowsExist(tasks: TaskTable, rows: seq<TaskRef>, staleAfter: int, maxAttempts: int, now: int)
    ensures forall r :: r in FailedRows(tasks, rows, staleAfter, maxAttempts, now) ==> r in tasks
  {
    if rows != [] {
      FailedRowsExist(tasks, Init(rows), staleAfter, maxAttempts, now);
    }
  }

  lemma TouchCounts(workers: map<string, Worker>, w: string, user: string, trace: string, lanes: set<string>, text: string, now: int,
                    id: string, k: Counter)
    ensures ValueOf(Touched(workers, w, user, trace, lanes, text, now), id, k) == ValueOf(workers, id, k)
  {
  }

  lemma AddCounts(workers: map<string, Worker>, w: string, count: nat, id: string, k: Counter)
    requires w in workers
    ensures ValueOf(AddClaims(workers, w, count), id, k) == ValueOf(workers, id, k) + if w == id && k == Claims then count else 0
  {
  }

  lemma StepCounts(t: Tables, op: Op, id: string, k: Counter)
    ensures ValueOf(Step(t, op).workers, id, k) == ValueOf(t.workers, id, k) + Credit(t, op, id, k)
  {
    match op
    case EnqueueOp(_, _, _, _) =>
    case HeartbeatOp(worker, user, trace, lanes, text, now) => TouchCounts(t.workers, worker, user, trace, lanes, text, now, id, k);
    case ClaimOp(user, trace, worker, lanes, _, _, now) =>
      TouchCounts(t.workers, worker, user, trace, lanes, "running", now, id, k);
      AddCounts(Touched(t.workers, worker, user, trace, lanes, "running", now), worker, |Handed(t, op)|, id, k);
    case MarkOp(trace, keys, _, acker, now) =>
      AckCounts(t.workers, acker, op.Outcome(), HitCount(t.tasks, trace, KeptKeys(keys)), now, id, k);
    case SweepOp(_, _, staleAfter, maxAttempts, rows, now) =>
      FailedRowsExist(t.tasks, rows, staleAfter, maxAttempts, now);
      BlameCounts(t.workers, t.tasks, FailedRows(t.tasks, rows, staleAfter, maxAttempts, now), now, id, k);
  }

  /**
   In every run a worker's counters are the tasks handed to it, the completions it acknowledged, and the
   failures it acknowledged plus the stale tasks it lost for good.
   */
  lemma {:induction false} WorkerCounters(ops: seq<Op>, id: string, k: Counter)
    ensures ValueOf(Exec(ops).workers, id, k) == Credits(ops, id, k)
  {
    if ops != [] {
      WorkerCounters(Init(ops), id, k);
      StepCounts(Exec(Init(ops)), Last(ops), id, k);
    }
  }
}
