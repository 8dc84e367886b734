/**
 The two tables of the task inbox and what one call of each public function does to them.
 A table is a map from key to row; a call is one atomic step, because every function of the source
 runs under the module lock. Times are integers in microseconds.
 */
module InboxModel {
  import opened Common
  import Slug

  datatype Status = Queued | Running | Completed | Failed | Canceled {
    predicate Terminal() {
      Completed? || Failed? || Canceled?
    }
  }

  /** The UNIQUE(trace_id, task_key) key of the task table. */
  datatype TaskRef = TaskRef(trace: string, key: string)

  datatype Task = Task(
    user: string, lane: string, status: Status, priority: int, deps: seq<string>,
    worker: Option<string>, attempts: nat,
    startedAt: Option<int>, finishedAt: Option<int>, createdAt: int, updatedAt: int)

  datatype Worker = Worker(
    user: string, trace: string, status: string, lanes: set<string>, heartbeatAt: int,
    claimed: nat, completed: nat, failed: nat)

  type TaskTable = map<TaskRef, Task>

  datatype Tables = Tables(tasks: TaskTable, workers: map<string, Worker>)

  /** One element of an enqueue request; text fields are already stripped and lower-cased. */
  datatype TaskSpec = TaskSpec(key: string, lane: string, priority: Option<int>, deps: seq<string>)

  const EMPTY := Tables(map[], map[])

  predicate Keyed(tasks: TaskTable) {
    forall r :: r in tasks ==> r.key != ""
  }

  // ----- enqueue -----

  /** A missing priority and the priority 0 both become 100. */
  function PriorityOf(p: Option<int>): int {
    if p.None? || p.value == 0 then 100 else p.value
  }

  function NewTask(user: string, spec: TaskSpec, now: int): Task {
    Task(user, spec.lane, Queued, PriorityOf(spec.priority), spec.deps, None, 0, None, None, now, now)
  }

  /** ON CONFLICT DO UPDATE: user, creation time and attempt count survive a second enqueue. */
  function Reenqueued(t: Task, spec: TaskSpec, now: int): Task {
    t.(lane := spec.lane, priority := PriorityOf(spec.priority), deps := spec.deps, status := Queued,
       worker := None, startedAt := None, finishedAt := None, updatedAt := now)
  }

  function EnqueueOne(tasks: TaskTable, user: string, trace: string, spec: TaskSpec, now: int): TaskTable {
    var r := TaskRef(trace, spec.key);
    if spec.key == "" then tasks
    else if r in tasks then tasks[r := Reenqueued(tasks[r], spec, now)]
    else tasks[r := NewTask(user, spec, now)]
  }

  function EnqueueAll(tasks: TaskTable, user: string, trace: string, specs: seq<TaskSpec>, now: int): TaskTable {
    if specs == [] then tasks
    else EnqueueOne(EnqueueAll(tasks, user, trace, Init(specs), now), user, trace, Last(specs), now)
  }

  /** The rows an enqueue reports, in request order. */
  function EnqueuedRows(trace: string, specs: seq<TaskSpec>): seq<TaskRef> {
    if specs == [] then []
    else EnqueuedRows(trace, Init(specs)) + if Last(specs).key == "" then [] else [TaskRef(trace, Last(specs).key)]
  }

  // ----- heartbeat -----

  /** Upsert of a worker row; the three counters survive. */
  function Touched(workers: map<string, Worker>, id: string, user: string, trace: string,
                   lanes: set<string>, status: string, now: int): map<string, Worker> {
    if id in workers
    then workers[id := workers[id].(user := user, trace := trace, status := status, lanes := lanes, heartbeatAt := now)]
    else workers[id := Worker(user, trace, status, lanes, now, 0, 0, 0)]
  }

  // ----- readiness and claims -----

  predicate StatusIs(tasks: TaskTable, r: TaskRef, status: Status) {
    r in tasks && tasks[r].status == status
  }

  predicate Done(tasks: TaskTable, r: TaskRef) {
    StatusIs(tasks, r, Completed)
  }

  predicate Ready(tasks: TaskTable, r: TaskRef) {
    r in tasks && forall d :: d in tasks[r].deps ==> Done(tasks, TaskRef(r.trace, d))
  }

  /** Ready, and in one of the worker's lanes; an empty lane set filters nothing. */
  predicate Eligible(tasks: TaskTable, lanes: set<string>, r: TaskRef) {
    r in tasks && (lanes == {} || tasks[r].lane in lanes) && Ready(tasks, r)
  }

  /** The rows that pass, in the order given. */
  function Eligibles(tasks: TaskTable, lanes: set<string>, rows: seq<TaskRef>): seq<TaskRef> {
    if rows == [] then []
    else
      var before := Eligibles(tasks, lanes, Init(rows));
      if Eligible(tasks, lanes, Last(rows)) then before + [Last(rows)] else before
  }

  function ClampLimit(limit: int): (n: nat)
    ensures 1 <= n <= 200
    ensures (1 <= limit <= 200 ==> n == limit) && (limit < 1 ==> n == 1) && (limit > 200 ==> n == 200)
  {
    Max(1, Min(limit, 200))
  }

  predicate InScope(tasks: TaskTable, user: string, trace: string, status: Status, r: TaskRef) {
    r in tasks && r.trace == trace && tasks[r].user == user && tasks[r].status == status
  }

  /** ORDER BY priority ASC, created_at ASC; rows that tie may come in either order. */
  predicate NotAfter(a: Task, b: Task) {
    a.priority < b.priority || (a.priority == b.priority && a.createdAt <= b.createdAt)
  }

  /** `rows` is an answer to "the first n queued tasks of this user and trace, best first". */
  ghost predicate IsWindow(tasks: TaskTable, user: string, trace: string, n: nat, rows: seq<TaskRef>) {
    && Distinct(rows)
    && |rows| <= n
    && (forall i :: 0 <= i < |rows| ==> InScope(tasks, user, trace, Queued, rows[i]))
    && (forall i, j :: 0 <= i < j < |rows| ==> NotAfter(tasks[rows[i]], tasks[rows[j]]))
    && (forall u :: InScope(tasks, user, trace, Queued, u) && u !in rows ==>
         |rows| == n && forall r :: r in rows ==> NotAfter(tasks[r], tasks[u]))
  }

  /** `rows` lists the running tasks of this user and trace, in any order. */
  ghost predicate IsRunningList(tasks: TaskTable, user: string, trace: string, rows: seq<TaskRef>) {
    Distinct(rows) && forall r :: r in rows <==> InScope(tasks, user, trace, Running, r)
  }

  function ClaimedRows(tasks: TaskTable, lanes: set<string>, limit: int, rows: seq<TaskRef>): seq<TaskRef> {
    First(Eligibles(tasks, lanes, rows), ClampLimit(limit))
  }

  function ClaimedTask(t: Task, worker: string, now: int): Task {
    t.(status := Running, worker := Some(worker), attempts := t.attempts + 1, startedAt := Some(now), updatedAt := now)
  }

  function ClaimTasks(tasks: TaskTable, worker: string, claimed: seq<TaskRef>, now: int): TaskTable {
    map r | r in tasks :: if r in claimed then ClaimedTask(tasks[r], worker, now) else tasks[r]
  }

  function AddClaims(workers: map<string, Worker>, worker: string, count: nat): map<string, Worker> {
    if worker in workers then workers[worker := workers[worker].(claimed := workers[worker].claimed + count)] else workers
  }

  function Claim(t: Tables, user: string, trace: string, worker: string, lanes: set<string>,
                 limit: int, rows: seq<TaskRef>, now: int): Tables {
    var claimed := ClaimedRows(t.tasks, lanes, limit, rows);
    Tables(ClaimTasks(t.tasks, worker, claimed, now),
           AddClaims(Touched(t.workers, worker, user, trace, lanes, "running", now), worker, |claimed|))
  }

  // ----- acknowledgements -----

  /** Blanks and case do not matter; an unknown status text means failed. */
  function NormalizeStatus(text: string): Status {
    StatusNamed(Slug.Lower(Slug.Strip(text)))
  }

  function StatusNamed(text: string): Status {
    match text
    case "queued" => Queued
    case "running" => Running
    case "completed" => Completed
    case "canceled" => Canceled
    case _ => Failed
  }

  function Marked(t: Task, status: Status, worker: Option<string>, now: int): Task {
    t.(status := status, worker := Coalesce(worker, t.worker), updatedAt := now,
       finishedAt := Coalesce(if status.Terminal() then Some(now) else None, t.finishedAt))
  }

  predicate Hit(trace: string, keys: seq<string>, r: TaskRef) {
    r.trace == trace && r.key in keys
  }

  function MarkTasks(tasks: TaskTable, trace: string, keys: seq<string>, status: Status,
                     worker: Option<string>, now: int): TaskTable {
    map r | r in tasks :: if Hit(trace, keys, r) then Marked(tasks[r], status, worker, now) else tasks[r]
  }

  /** Rows updated, one per occurrence of a key. */
  function HitCount(tasks: TaskTable, trace: string, keys: seq<string>): nat {
    if keys == [] then 0
    else HitCount(tasks, trace, Init(keys)) + (if TaskRef(trace, Last(keys)) in tasks then 1 else 0)
  }

  function CreditWorker(workers: map<string, Worker>, worker: Option<string>, status: Status, count: nat, now: int)
    : map<string, Worker>
  {
    if worker.None? || worker.value == "" || worker.value !in workers then workers
    else
      var w := workers[worker.value];
      match status
      case Completed => workers[worker.value := w.(completed := w.completed + count, heartbeatAt := now, status := "running")]
      case Failed => workers[worker.value := w.(failed := w.failed + count, heartbeatAt := now, status := "running")]
      case Canceled => workers[worker.value := w.(heartbeatAt := now, status := "idle")]
      case _ => workers
  }

  /** Empty keys are dropped; if nothing is left the call does nothing. */
  function KeptKeys(keys: seq<string>): seq<string> {
    if keys == [] then []
    else if Last(keys) == "" then KeptKeys(Init(keys))
    else KeptKeys(Init(keys)) + [Last(keys)]
  }

  function Mark(t: Tables, trace: string, rawKeys: seq<string>, status: Status, worker: Option<string>, now: int): Tables {
    var keys := KeptKeys(rawKeys);
    if keys == [] then t
    else Tables(MarkTasks(t.tasks, trace, keys, status, worker, now),
                CreditWorker(t.workers, worker, status, HitCount(t.tasks, trace, keys), now))
  }

  // ----- stale sweep -----

  /** int(total_seconds): truncation towards zero. */
  function AgeSeconds(now: int, updatedAt: int): int {
    var d := now - updatedAt;
    if d >= 0 then d / 1_000_000 else -((-d) / 1_000_000)
  }

  predicate Stale(t: Task, staleAfter: int, now: int) {
    AgeSeconds(now, t.updatedAt) >= Max(30, staleAfter)
  }

  predicate Exhausted(t: Task, maxAttempts: int) {
    t.attempts >= Max(1, maxAttempts)
  }

  function Requeued(t: Task, now: int): Task {
    t.(status := Queued, worker := None, startedAt := None, updatedAt := now)
  }

  /** Where one running row goes: left alone, failed, or back to the queue. */
  function SweptTask(t: Task, staleAfter: int, maxAttempts: int, now: int): Task {
    if !Stale(t, staleAfter, now) then t
    else if Exhausted(t, maxAttempts) then Marked(t, Failed, KnownWorker(t), now)
    else Requeued(t, now)
  }

  /** The worker passed on by the sweep: an empty id counts as none. */
  function KnownWorker(t: Task): Option<string> {
    if t.worker == Some("") then None else t.worker
  }

  function SweepTasks(tasks: TaskTable, rows: seq<TaskRef>, staleAfter: int, maxAttempts: int, now: int): TaskTable {
    map r | r in tasks :: if r in rows then SweptTask(tasks[r], staleAfter, maxAttempts, now) else tasks[r]
  }

  predicate Fails(tasks: TaskTable, r: TaskRef, staleAfter: int, maxAttempts: int, now: int) {
    r in tasks && Stale(tasks[r], staleAfter, now) && Exhausted(tasks[r], maxAttempts)
  }

  predicate Returns(tasks: TaskTable, r: TaskRef, staleAfter: int, maxAttempts: int, now: int) {
    r in tasks && Stale(tasks[r], staleAfter, now) && !Exhausted(tasks[r], maxAttempts)
  }

  /** The rows the sweep fails, in list order. */
  function FailedRows(tasks: TaskTable, rows: seq<TaskRef>, staleAfter: int, maxAttempts: int, now: int): seq<TaskRef> {
    if rows == [] then []
    else
      var before := FailedRows(tasks, Init(rows), staleAfter, maxAttempts, now);
      if Fails(tasks, Last(rows), staleAfter, maxAttempts, now) then before + [Last(rows)] else before
  }

  /** The rows the sweep puts back, in list order. */
  function RequeuedRows(tasks: TaskTable, rows: seq<TaskRef>, staleAfter: int, maxAttempts: int, now: int): seq<TaskRef> {
    if rows == [] then []
    else
      var before := RequeuedRows(tasks, Init(rows), staleAfter, maxAttempts, now);
      if Returns(tasks, Last(rows), staleAfter, maxAttempts, now) then before + [Last(rows)] else before
  }

  /** Each failed row bumps the failure counter of the worker that held it. */
  function BlameWorkers(workers: map<string, Worker>, tasks: TaskTable, failed: seq<TaskRef>, now: int): map<string, Worker> {
    if failed == [] || Last(failed) !in tasks then workers
    else CreditWorker(BlameWorkers(workers, tasks, Init(failed), now), KnownWorker(tasks[Last(failed)]), Failed, 1, now)
  }

  function Sweep(t: Tables, staleAfter: int, maxAttempts: int, rows: seq<TaskRef>, now: int): Tables {
    Tables(SweepTasks(t.tasks, rows, staleAfter, maxAttempts, now),
           BlameWorkers(t.workers, t.tasks, FailedRows(t.tasks, rows, staleAfter, maxAttempts, now), now))
  }
}
