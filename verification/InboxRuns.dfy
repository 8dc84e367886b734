/** Runs of the inbox: any sequence of calls, from empty tables. */
module InboxRuns {
  import opened Common
  import opened Sums
  import opened InboxModel
  import opened Inbox
  import InboxClaims
  import Slug

  datatype Op =
    | EnqueueOp(user: string, trace: string, specs: seq<TaskSpec>, now: int)
    | HeartbeatOp(worker: string, user: string, trace: string, lanes: set<string>, text: string, now: int)
    | ClaimOp(user: string, trace: string, worker: string, lanes: set<string>, limit: int, rows: seq<TaskRef>, now: int)
    | MarkOp(trace: string, keys: seq<string>, text: string, acker: Option<string>, now: int)
    | SweepOp(user: string, trace: string, staleAfter: int, maxAttempts: int, rows: seq<TaskRef>, now: int)
  {
    /** The status an acknowledgement asks for. */
    function Outcome(): Status
      requires MarkOp?
    {
      NormalizeStatus(text)
    }
  }

  function Step(t: Tables, op: Op): Tables {
    match op
    case EnqueueOp(user, trace, specs, now) => t.(tasks := EnqueueAll(t.tasks, user, trace, specs, now))
    case HeartbeatOp(worker, user, trace, lanes, text, now) => t.(workers := Touched(t.workers, worker, user, trace, lanes, text, now))
    case ClaimOp(user, trace, worker, lanes, limit, rows, now) => Claim(t, user, trace, worker, lanes, limit, rows, now)
    case MarkOp(trace, keys, _, acker, now) => Mark(t, trace, keys, op.Outcome(), acker, now)
    case SweepOp(user, trace, staleAfter, maxAttempts, rows, now) => Sweep(t, staleAfter, maxAttempts, rows, now)
  }

  /** The row arguments are answers the database could have given. */
  ghost predicate Possible(t: Tables, op: Op) {
    match op
    case ClaimOp(user, trace, _, _, limit, rows, _) => IsWindow(t.tasks, user, trace, 8 * ClampLimit(limit), rows)
    case SweepOp(user, trace, _, _, rows, _) => IsRunningList(t.tasks, user, trace, rows)
    case _ => true
  }

  function Exec(ops: seq<Op>): Tables {
    if ops == [] then EMPTY else Step(Exec(Init(ops)), Last(ops))
  }

  ghost predicate Run(ops: seq<Op>) {
    ops != [] ==> Run(Init(ops)) && Possible(Exec(Init(ops)), Last(ops))
  }

  /** The tasks an operation hands out. */
  function Handed(t: Tables, op: Op): seq<TaskRef> {
    if op.ClaimOp? then ClaimedRows(t.tasks, op.lanes, op.limit, op.rows) else []
  }

  function TotalClaims(ops: seq<Op>): nat {
    if ops == [] then 0 else TotalClaims(Init(ops)) + |Handed(Exec(Init(ops)), Last(ops))|
  }

  // ----- status texts -----

  /** The five status texts, and what an acknowledgement with such a text stores. */
  function TextOf(status: Status): string {
    match status
    case Queued => "queued"
    case Running => "running"
    case Completed => "completed"
    case Failed => "failed"
    case Canceled => "canceled"
  }

  const TEXTS := {"queued", "running", "completed", "failed", "canceled"}

  lemma PlainTexts(text: string)
    requires text in TEXTS
    ensures Slug.Lower(Slug.Strip(text)) == text
  {
    NamedTexts(text);
    TextIsSlug(StatusNamed(text));
    Slug.PlainText(text);
  }

  lemma TextIsSlug(status: Status)
    ensures Slug.SlugChars(TextOf(status))
  {
    match status
    case Queued => assert Slug.SlugChars("queued");
    case Running => assert Slug.SlugChars("running");
    case Completed => assert Slug.SlugChars("completed");
    case Failed => assert Slug.SlugChars("failed");
    case Canceled => assert Slug.SlugChars("canceled");
  }

  lemma NamedTexts(clean: string)
    ensures TextOf(StatusNamed(clean)) == if clean in TEXTS then clean else "failed"
  {
  }

  lemma StatusTexts(text: string)
    ensures text in TEXTS ==> TextOf(NormalizeStatus(text)) == text
    ensures Slug.Lower(Slug.Strip(text)) in TEXTS ==> TextOf(NormalizeStatus(text)) == Slug.Lower(Slug.Strip(text))
    ensures Slug.Lower(Slug.Strip(text)) !in TEXTS ==> TextOf(NormalizeStatus(text)) == "failed"
  {
    NamedTexts(Slug.Lower(Slug.Strip(text)));
    if text in TEXTS {
      PlainTexts(text);
    }
  }

  // ----- how one step changes one row -----

  lemma {:induction false} EnqueueRow(tasks: TaskTable, user: string, trace: string, specs: seq<TaskSpec>, now: int, r: TaskRef)
    ensures var after := EnqueueAll(tasks, user, trace, specs, now);
      && (r in after <==> r in tasks || (Hit(trace, KeysOf(specs), r) && r.key != ""))
      && (r in tasks && !Hit(trace, KeysOf(specs), r) ==> after[r] == tasks[r])
      && (r in tasks && r.key == "" ==> after[r] == tasks[r])
      && (r in after && Hit(trace, KeysOf(specs), r) && r.key != "" ==>
            after[r].status == Queued && after[r].worker == None && after[r].startedAt == None && after[r].finishedAt == None
            && after[r].attempts == (if r in tasks then tasks[r].attempts else 0))
  {
    if specs != [] {
      EnqueueRow(tasks, user, trace, Init(specs), now, r);
      assert KeysOf(specs) == KeysOf(Init(specs)) + [Last(specs).key];
    }
  }

  function KeysOf(specs: seq<TaskSpec>): (keys: seq<string>)
    ensures |keys| == |specs|
    ensures forall i :: 0 <= i < |specs| ==> keys[i] == specs[i].key
  {
    seq(|specs|, i requires 0 <= i < |specs| => specs[i].key)
  }

  // ----- claim accounting -----

  ghost function AttemptColumn(tasks: TaskTable): map<TaskRef, int> {
    map r | r in tasks :: tasks[r].attempts
  }

  ghost function ClaimColumn(workers: map<string, Worker>): map<string, int> {
    map w | w in workers :: workers[w].claimed
  }

  lemma EnqueueOneKeepsAttempts(tasks: TaskTable, user: string, trace: string, spec: TaskSpec, now: int)
    ensures Sum(AttemptColumn(EnqueueOne(tasks, user, trace, spec, now))) == Sum(AttemptColumn(tasks))
  {
    var r := TaskRef(trace, spec.key);
    if r.key != "" {
      var n := if r in tasks then tasks[r].attempts else 0;
      SumUpdate(AttemptColumn(tasks), r, n);
      assert AttemptColumn(EnqueueOne(tasks, user, trace, spec, now)) == AttemptColumn(tasks)[r := n];
    }
  }

  lemma {:induction false} EnqueueKeepsAttempts(tasks: TaskTable, user: string, trace: string, specs: seq<TaskSpec>, now: int)
    ensures Sum(AttemptColumn(EnqueueAll(tasks, user, trace, specs, now))) == Sum(AttemptColumn(tasks))
  {
    if specs != [] {
      EnqueueKeepsAttempts(tasks, user, trace, Init(specs), now);
      EnqueueOneKeepsAttempts(EnqueueAll(tasks, user, trace, Init(specs), now), user, trace, Last(specs), now);
    }
  }

  lemma {:induction false} ClaimAddsAttempts(tasks: TaskTable, worker: string, claimed: seq<TaskRef>, now: int)
    requires Distinct(claimed) && forall r :: r in claimed ==> r in tasks
    ensures Sum(AttemptColumn(ClaimTasks(tasks, worker, claimed, now))) == Sum(AttemptColumn(tasks)) + |claimed|
  {
    if claimed == [] {
      assert ClaimTasks(tasks, worker, claimed, now) == tasks;
    } else {
      var before, r := Init(claimed), Last(claimed);
      assert claimed == before + [r];
      ClaimAddsAttempts(tasks, worker, before, now);
      ClaimTasksStep(tasks, worker, before, r, now);
      var column := AttemptColumn(ClaimTasks(tasks, worker, before, now));
      SumUpdate(column, r, tasks[r].attempts + 1);
      assert AttemptColumn(ClaimTasks(tasks, worker, claimed, now)) == column[r := tasks[r].attempts + 1];
    }
  }

  /** Crediting and blaming acknowledgements leaves the claim counters alone. */
  lemma CreditKeepsClaims(workers: map<string, Worker>, acker: Option<string>, status: Status, count: nat, now: int)
    ensures ClaimColumn(CreditWorker(workers, acker, status, count, now)) == ClaimColumn(workers)
  {
  }

  lemma {:induction false} BlameKeepsClaims(workers: map<string, Worker>, tasks: TaskTable, failed: seq<TaskRef>, now: int)
    ensures ClaimColumn(BlameWorkers(workers, tasks, failed, now)) == ClaimColumn(workers)
  {
    if failed != [] && Last(failed) in tasks {
      BlameKeepsClaims(workers, tasks, Init(failed), now);
      CreditKeepsClaims(BlameWorkers(workers, tasks, Init(failed), now), KnownWorker(tasks[Last(failed)]), Failed, 1, now);
    }
  }

  lemma TouchKeepsClaims(workers: map<string, Worker>, id: string, user: string, trace: string, lanes: set<string>, text: string, now: int)
    ensures Sum(ClaimColumn(Touched(workers, id, user, trace, lanes, text, now))) == Sum(ClaimColumn(workers))
  {
    var n := if id in workers then workers[id].claimed else 0;
    SumUpdate(ClaimColumn(workers), id, n);
    assert ClaimColumn(Touched(workers, id, user, trace, lanes, text, now)) == ClaimColumn(workers)[id := n];
  }

  lemma ClaimCredits(workers: map<string, Worker>, id: string, user: string, trace: string, lanes: set<string>, count: nat, now: int)
    ensures Sum(ClaimColumn(AddClaims(Touched(workers, id, user, trace, lanes, "running", now), id, count)))
         == Sum(ClaimColumn(workers)) + count
  {
    TouchKeepsClaims(workers, id, user, trace, lanes, "running", now);
    AddClaimsCounts(Touched(workers, id, user, trace, lanes, "running", now), id, count);
  }

  lemma AddClaimsCounts(workers: map<string, Worker>, id: string, count: nat)
    requires id in workers
    ensures Sum(ClaimColumn(AddClaims(workers, id, count))) == Sum(ClaimColumn(workers)) + count
  {
    SumUpdate(ClaimColumn(workers), id, workers[id].claimed + count);
    assert ClaimColumn(AddClaims(workers, id, count)) == ClaimColumn(workers)[id := workers[id].claimed + count];
  }

  lemma MarkKeepsAttempts(tasks: TaskTable, trace: string, keys: seq<string>, status: Status, acker: Option<string>, now: int)
    ensures AttemptColumn(MarkTasks(tasks, trace, keys, status, acker, now)) == AttemptColumn(tasks)
  {
  }

  lemma SweepKeepsAttempts(tasks: TaskTable, rows: seq<TaskRef>, staleAfter: int, maxAttempts: int, now: int)
    ensures AttemptColumn(SweepTasks(tasks, rows, staleAfter, maxAttempts, now)) == AttemptColumn(tasks)
  {
  }

  lemma StepAccounting(t: Tables, op: Op)
    requires Possible(t, op)
    ensures Sum(AttemptColumn(Step(t, op).tasks)) == Sum(AttemptColumn(t.tasks)) + |Handed(t, op)|
    ensures Sum(ClaimColumn(Step(t, op).workers)) == Sum(ClaimColumn(t.workers)) + |Handed(t, op)|
  {
    match op
    case EnqueueOp(user, trace, specs, now) =>
      EnqueueKeepsAttempts(t.tasks, user, trace, specs, now);
    case HeartbeatOp(worker, user, trace, lanes, text, now) =>
      TouchKeepsClaims(t.workers, worker, user, trace, lanes, text, now);
    case ClaimOp(user, trace, worker, lanes, limit, rows, now) =>
      HandedRows(t, op);
      ClaimAddsAttempts(t.tasks, worker, Handed(t, op), now);
      ClaimCredits(t.workers, worker, user, trace, lanes, |Handed(t, op)|, now);
    case MarkOp(trace, keys, _, acker, now) =>
      MarkKeepsAttempts(t.tasks, trace, KeptKeys(keys), op.Outcome(), acker, now);
      CreditKeepsClaims(t.workers, acker, op.Outcome(), HitCount(t.tasks, trace, KeptKeys(keys)), now);
    case SweepOp(user, trace, staleAfter, maxAttempts, rows, now) =>
      BlameKeepsClaims(t.workers, t.tasks, FailedRows(t.tasks, rows, staleAfter, maxAttempts, now), now);
      SweepKeepsAttempts(t.tasks, rows, staleAfter, maxAttempts, now);
  }

  lemma HandedRows(t: Tables, op: Op)
    requires Possible(t, op) && op.ClaimOp?
    ensures Distinct(Handed(t, op))
    ensures forall r :: r in Handed(t, op) ==> InScope(t.tasks, op.user, op.trace, Queued, r) && Eligible(t.tasks, op.lanes, r)
  {
    InboxClaims.EligibleMeans(t.tasks, op.lanes);
    InboxClaims.ClaimIsFirstEligible(t.tasks, op.lanes, op.limit, op.rows);
    forall r | r in Handed(t, op)
      ensures InScope(t.tasks, op.user, op.trace, Queued, r)
    {
      var i :| 0 <= i < |op.rows| && op.rows[i] == r;
    }
  }

  /** In every run the workers' claim counters and the tasks' attempt counters both add up to the tasks handed out. */
  lemma {:induction false} ClaimAccounting(ops: seq<Op>)
    requires Run(ops)
    ensures Sum(AttemptColumn(Exec(ops).tasks)) == TotalClaims(ops)
    ensures Sum(ClaimColumn(Exec(ops).workers)) == TotalClaims(ops)
  {
    if ops == [] {
      assert AttemptColumn(EMPTY.tasks) == map[] && ClaimColumn(EMPTY.workers) == map[];
    } else {
      ClaimAccounting(Init(ops));
      StepAccounting(Exec(Init(ops)), Last(ops));
    }
  }
}
