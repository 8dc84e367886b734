/** Tasks leave the queue in dependency order - and exactly when that can go wrong. */
module InboxOrder {
  import opened Common
  import opened InboxModel
  import opened Inbox
  import opened InboxRuns

  /** Every task that has left the queue has all its dependencies completed. */
  predicate Ordered(tasks: TaskTable) {
    forall r :: r in tasks && tasks[r].status != Queued ==> Ready(tasks, r)
  }

  /** The row an operation on these keys rewrites; empty keys are dropped. */
  predicate Takes(trace: string, keys: seq<string>, r: TaskRef) {
    r.key != "" && Hit(trace, keys, r)
  }

  /** One of the dependencies of row r is rewritten. */
  predicate TakesDep(trace: string, keys: seq<string>, tasks: TaskTable, r: TaskRef)
    requires r in tasks
  {
    exists d :: d in tasks[r].deps && Takes(trace, keys, TaskRef(r.trace, d))
  }

  /** All dependencies of row r are completed or about to be. */
  predicate ReadyAfter(trace: string, keys: seq<string>, tasks: TaskTable, r: TaskRef)
    requires r in tasks
  {
    forall d :: d in tasks[r].deps ==>
      Done(tasks, TaskRef(r.trace, d)) || (TaskRef(r.trace, d) in tasks && Takes(trace, keys, TaskRef(r.trace, d)))
  }

  /**
   What a caller has to check so that the order survives. Claims, sweeps and heartbeats are always safe.
   An enqueue must not reset a completed dependency of a task that stays out of the queue. An
   acknowledgement, which the source does not guard, must not take back a completion that such a task
   relies on, nor take a task out of the queue whose dependencies are not completed by then.
   */
  predicate KeepsOrder(t: Tables, op: Op) {
    match op
    case EnqueueOp(_, trace, specs, _) => LeavesDepsAlone(t.tasks, trace, KeysOf(specs))
    case MarkOp(trace, keys, _, _, _) => MarkKeepsOrder(t.tasks, trace, KeptKeys(keys), op.Outcome())
    case _ => true
  }

  predicate LeavesDepsAlone(tasks: TaskTable, trace: string, keys: seq<string>) {
    forall r :: r in tasks && tasks[r].status != Queued && !Takes(trace, keys, r) ==> !TakesDep(trace, keys, tasks, r)
  }

  predicate MarkKeepsOrder(tasks: TaskTable, trace: string, keys: seq<string>, status: Status) {
    match status
    case Queued => LeavesDepsAlone(tasks, trace, keys)
    case Completed =>
      forall r :: r in tasks && tasks[r].status == Queued && Takes(trace, keys, r) ==> ReadyAfter(trace, keys, tasks, r)
    case _ =>
      forall r :: r in tasks && (tasks[r].status != Queued || Takes(trace, keys, r)) ==>
        Ready(tasks, r) && !TakesDep(trace, keys, tasks, r)
  }

  lemma {:induction false} KeptKeysNonEmpty(keys: seq<string>)
    ensures "" !in KeptKeys(keys)
  {
    if keys != [] {
      KeptKeysNonEmpty(Init(keys));
    }
  }

  lemma EnqueueOrder(t: Tables, op: Op)
    requires op.EnqueueOp? && Ordered(t.tasks)
    ensures Ordered(Step(t, op).tasks) <==> KeepsOrder(t, op)
  {
    var tasks, after, keys := t.tasks, Step(t, op).tasks, KeysOf(op.specs);
    forall r
      ensures r in tasks ==> r in after
      ensures r in tasks && !Takes(op.trace, keys, r) ==> after[r] == tasks[r]
      ensures r in after && Takes(op.trace, keys, r) ==> after[r].status == Queued
      ensures r in after && r !in tasks ==> Takes(op.trace, keys, r)
    {
      EnqueueRow(tasks, op.user, op.trace, op.specs, op.now, r);
    }
    ResetOrder(tasks, after, op.trace, keys);
  }

  /** Rows that a call sends back to the queue must not be dependencies of rows that stay out of it. */
  lemma ResetOrder(tasks: TaskTable, after: TaskTable, trace: string, keys: seq<string>)
    requires Ordered(tasks)
    requires forall r :: r in tasks ==> r in after
    requires forall r :: r in tasks && !Takes(trace, keys, r) ==> after[r].deps == tasks[r].deps && after[r].status == tasks[r].status
    requires forall r :: r in after && Takes(trace, keys, r) ==> after[r].status == Queued
    requires forall r :: r in after && r !in tasks ==> Takes(trace, keys, r)
    ensures Ordered(after) <==> LeavesDepsAlone(tasks, trace, keys)
  {
    if LeavesDepsAlone(tasks, trace, keys) {
      forall r | r in after && after[r].status != Queued
        ensures Ready(after, r)
      {
        assert Ready(tasks, r);
      }
    } else {
      var r :| r in tasks && tasks[r].status != Queued && !Takes(trace, keys, r) && TakesDep(trace, keys, tasks, r);
      var d :| d in tasks[r].deps && Takes(trace, keys, TaskRef(r.trace, d));
      assert !Done(after, TaskRef(r.trace, d));
      assert !Ready(after, r);
    }
  }

  lemma MarkOrder(t: Tables, op: Op)
    requires op.MarkOp? && Ordered(t.tasks)
    ensures Ordered(Step(t, op).tasks) <==> KeepsOrder(t, op)
  {
    var tasks, after, keys := t.tasks, Step(t, op).tasks, KeptKeys(op.keys);
    KeptKeysNonEmpty(op.keys);
    forall r | r in tasks
      ensures r in after && after[r].deps == tasks[r].deps
      ensures after[r].status == if Takes(op.trace, keys, r) then op.Outcome() else tasks[r].status
    {
      assert Takes(op.trace, keys, r) <==> Hit(op.trace, keys, r);
    }
    assert after.Keys == tasks.Keys;
    match op.Outcome()
    case Queued => ResetOrder(tasks, after, op.trace, keys);
    case Completed => CompleteOrder(tasks, after, op.trace, keys);
    case Running => SpoilOrder(tasks, after, op.trace, keys, op.Outcome());
    case Failed => SpoilOrder(tasks, after, op.trace, keys, op.Outcome());
    case Canceled => SpoilOrder(tasks, after, op.trace, keys, op.Outcome());
  }

  lemma CompleteOrder(tasks: TaskTable, after: TaskTable, trace: string, keys: seq<string>)
    requires Ordered(tasks) && after.Keys == tasks.Keys
    requires forall r :: r in tasks ==> after[r].deps == tasks[r].deps
    requires forall r :: r in tasks ==> after[r].status == if Takes(trace, keys, r) then Completed else tasks[r].status
    ensures Ordered(after) <==> MarkKeepsOrder(tasks, trace, keys, Completed)
  {
    if MarkKeepsOrder(tasks, trace, keys, Completed) {
      forall r | r in after && after[r].status != Queued
        ensures Ready(after, r)
      {
        assert tasks[r].status != Queued ==> Ready(tasks, r);
      }
    } else {
      var r :| r in tasks && tasks[r].status == Queued && Takes(trace, keys, r) && !ReadyAfter(trace, keys, tasks, r);
      assert !Ready(after, r);
    }
  }

  lemma SpoilOrder(tasks: TaskTable, after: TaskTable, trace: string, keys: seq<string>, status: Status)
    requires Ordered(tasks) && after.Keys == tasks.Keys && status != Queued && status != Completed
    requires forall r :: r in tasks ==> after[r].deps == tasks[r].deps
    requires forall r :: r in tasks ==> after[r].status == if Takes(trace, keys, r) then status else tasks[r].status
    ensures Ordered(after) <==> MarkKeepsOrder(tasks, trace, keys, status)
  {
    forall r | r in tasks
      ensures Ready(after, r) <==> Ready(tasks, r) && !TakesDep(trace, keys, tasks, r)
    {
      forall d | d in tasks[r].deps
        ensures Done(after, TaskRef(r.trace, d)) <==>
                Done(tasks, TaskRef(r.trace, d)) && !Takes(trace, keys, TaskRef(r.trace, d))
      {
      }
    }
  }

  /** From an ordered state one step stays ordered exactly when its caller kept to KeepsOrder. */
  lemma StepOrder(t: Tables, op: Op)
    requires Possible(t, op) && Ordered(t.tasks)
    ensures Ordered(Step(t, op).tasks) <==> KeepsOrder(t, op)
  {
    match op
    case EnqueueOp(_, _, _, _) => EnqueueOrder(t, op);
    case MarkOp(_, _, _, _, _) => MarkOrder(t, op);
    case HeartbeatOp(_, _, _, _, _, _) =>
    case ClaimOp(_, _, _, _, _, _, _) =>
      HandedRows(t, op);
      OthersStayDone(t, op);
    case SweepOp(_, _, _, _, _, _) =>
      OthersStayDone(t, op);
  }

  lemma OthersStayDone(t: Tables, op: Op)
    requires Possible(t, op) && (op.ClaimOp? || op.SweepOp?)
    ensures forall r :: r in t.tasks ==> r in Step(t, op).tasks && Step(t, op).tasks[r].deps == t.tasks[r].deps
    ensures forall r :: Done(t.tasks, r) ==> Done(Step(t, op).tasks, r)
    ensures forall r :: Ready(t.tasks, r) ==> Ready(Step(t, op).tasks, r)
  {
    if op.ClaimOp? {
      HandedRows(t, op);
    }
  }

  predicate OrderlyRun(ops: seq<Op>) {
    ops != [] ==> OrderlyRun(Init(ops)) && KeepsOrder(Exec(Init(ops)), Last(ops))
  }

  predicate AlwaysOrdered(ops: seq<Op>) {
    Ordered(Exec(ops).tasks) && (ops != [] ==> AlwaysOrdered(Init(ops)))
  }

  /** A run is ordered in all its states exactly when every call of it was made under KeepsOrder. */
  lemma {:induction false} OrderedRuns(ops: seq<Op>)
    requires Run(ops)
    ensures AlwaysOrdered(ops) <==> OrderlyRun(ops)
  {
    if ops != [] {
      OrderedRuns(Init(ops));
      if AlwaysOrdered(Init(ops)) {
        StepOrder(Exec(Init(ops)), Last(ops));
      }
    }
  }

  /** The guard is needed: acknowledging a task nobody claimed completes it before its dependency. */
  lemma UnguardedAckBreaksOrder()
    ensures var ops := [EnqueueOp("u", "t", [TaskSpec("a", "general", None, ["b"])], 0), MarkOp("t", ["a"], "completed", None, 1)];
            Run(ops) && !Ordered(Exec(ops).tasks)
  {
    var enqueue := EnqueueOp("u", "t", [TaskSpec("a", "general", None, ["b"])], 0);
    var mark := MarkOp("t", ["a"], "completed", None, 1);
    var a := TaskRef("t", "a");
    assert Init([enqueue, mark]) == [enqueue] && Init([enqueue]) == [];
    assert Init(enqueue.specs) == [];
    assert EnqueueAll(EMPTY.tasks, "u", "t", [], 0) == EMPTY.tasks;
    var t := Step(EMPTY, enqueue);
    assert Exec([enqueue]) == t;
    assert t.tasks == map[a := NewTask("u", enqueue.specs[0], 0)];
    assert "b" in t.tasks[a].deps && TaskRef("t", "b") !in t.tasks;
    assert Init(["a"]) == [];
    assert KeptKeys(["a"]) == KeptKeys([]) + ["a"];
    var after := Step(t, mark);
    StatusTexts(mark.text);
    assert Hit("t", ["a"], a) && after.tasks[a].status == Completed;
    assert !Done(after.tasks, TaskRef("t", "b"));
    assert !Ready(after.tasks, a);
    assert Exec([enqueue, mark]) == after;
  }
}
