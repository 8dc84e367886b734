/** How often a task can be handed out. */
module InboxRetries {
  import opened Common
  import opened Sums
  import opened InboxModel
  import opened Inbox
  import opened InboxRuns

  /** The task is put back from outside: enqueued again, or marked queued. */
  predicate PutsBack(t: Tables, op: Op, r: TaskRef) {
    && r in t.tasks
    && match op
       case EnqueueOp(_, trace, specs, _) => r.key != "" && Hit(trace, KeysOf(specs), r)
       case MarkOp(trace, keys, _, _, _) => op.Outcome() == Queued && Hit(trace, KeptKeys(keys), r)
       case _ => false
  }

  function PutBacks(ops: seq<Op>, r: TaskRef): nat {
    if ops == [] then 0
    else PutBacks(Init(ops), r) + (if PutsBack(Exec(Init(ops)), Last(ops), r) then 1 else 0)
  }

  /** Every sweep of the run uses an attempt maximum of at most `most`. */
  predicate SweepsWithin(ops: seq<Op>, most: nat) {
    forall i :: 0 <= i < |ops| ==> ops[i].SweepOp? ==> Max(1, ops[i].maxAttempts) <= most
  }

  predicate WithinRetries(t: Task, most: nat, putBacks: nat) {
    t.attempts <= most + putBacks && (t.status == Queued ==> t.attempts < most + putBacks)
  }

  lemma StepWithinRetries(t: Tables, op: Op, r: TaskRef, most: nat, putBacks: nat)
    requires Possible(t, op) && most >= 1
    requires op.SweepOp? ==> Max(1, op.maxAttempts) <= most
    requires r in t.tasks ==> WithinRetries(t.tasks[r], most, putBacks)
    requires r in Step(t, op).tasks
    ensures WithinRetries(Step(t, op).tasks[r], most, putBacks + if PutsBack(t, op, r) then 1 else 0)
  {
    match op
    case EnqueueOp(user, trace, specs, now) =>
      EnqueueRow(t.tasks, user, trace, specs, now, r);
    case HeartbeatOp(_, _, _, _, _, _) =>
    case ClaimOp(_, _, _, _, _, _, _) =>
      HandedRows(t, op);
    case MarkOp(_, _, _, _, _) =>
    case SweepOp(_, _, _, _, _, _) =>
  }

  /**
   Bounded retries: attempts never exceed the maximum plus the times the task was put back from outside,
   and a queued task always has one attempt left.
   */
  lemma {:induction false} BoundedRetries(ops: seq<Op>, most: nat, r: TaskRef)
    requires Run(ops) && most >= 1 && SweepsWithin(ops, most)
    requires r in Exec(ops).tasks
    ensures WithinRetries(Exec(ops).tasks[r], most, PutBacks(ops, r))
  {
    if ops != [] {
      var before := Init(ops);
      if r in Exec(before).tasks {
        BoundedRetries(before, most, r);
      }
      StepWithinRetries(Exec(before), Last(ops), r, most, PutBacks(before, r));
    }
  }

  ghost function PutBackColumn(ops: seq<Op>): map<TaskRef, int> {
    map r | r in Exec(ops).tasks :: PutBacks(ops, r)
  }

  /**
   So the claims of a whole run are bounded: by the maximum per task plus the put-backs. Sweeps and
   acknowledgements add nothing to the right side, so the difference is a termination measure for claiming.
   */
  lemma ClaimsBounded(ops: seq<Op>, most: nat)
    requires Run(ops) && most >= 1 && SweepsWithin(ops, most)
    ensures TotalClaims(ops) <= most * |Exec(ops).tasks| + Sum(PutBackColumn(ops))
  {
    var tasks := Exec(ops).tasks;
    var flat := map r | r in tasks :: most;
    var limit := map r | r in tasks :: most + PutBacks(ops, r);
    forall r | r in tasks
      ensures AttemptColumn(tasks)[r] <= limit[r]
    {
      BoundedRetries(ops, most, r);
    }
    ClaimAccounting(ops);
    SumAtMost(AttemptColumn(tasks), limit);
    SumPlus(flat, PutBackColumn(ops), limit);
    FlatColumn(tasks, most);
  }

  lemma FlatColumn(tasks: TaskTable, most: nat)
    ensures Sum(map r | r in tasks :: most) == most * |tasks|
  {
    var flat := map r | r in tasks :: most;
    SumConst(flat, most);
    assert flat.Keys == tasks.Keys;
    assert |flat| == |tasks|;
  }
}
