/** The fields that go with each status, and where a stale sweep sends a task. */
module InboxLifecycle {
  import opened Common
  import opened InboxModel
  import opened Inbox
  import opened InboxRuns

  predicate FieldsFit(t: Task) {
    match t.status
    case Queued => t.worker == None && t.startedAt == None && t.finishedAt == None
    case Running => t.worker.Some? && t.startedAt.Some? && t.finishedAt == None
    case _ => t.finishedAt.Some?
  }

  predicate AllFit(tasks: TaskTable) {
    forall r :: r in tasks ==> FieldsFit(tasks[r])
  }

  /**
   Only acknowledgements can break the fit. Terminal ones never do; "queued" is harmless only on tasks that
   are queued and without naming a worker, "running" only on tasks that are running.
   */
  predicate MarkFits(tasks: TaskTable, trace: string, keys: seq<string>, status: Status, acker: Option<string>) {
    forall r :: r in tasks && Hit(trace, keys, r) ==>
      match status
      case Queued => tasks[r].status == Queued && acker == None
      case Running => tasks[r].status == Running
      case _ => true
  }

  predicate KeepsFit(t: Tables, op: Op) {
    op.MarkOp? ==> MarkFits(t.tasks, op.trace, KeptKeys(op.keys), op.Outcome(), op.acker)
  }

  lemma MarkFit(tasks: TaskTable, trace: string, keys: seq<string>, status: Status, acker: Option<string>, now: int)
    requires AllFit(tasks)
    ensures AllFit(MarkTasks(tasks, trace, keys, status, acker, now)) <==> MarkFits(tasks, trace, keys, status, acker)
  {
    var after := MarkTasks(tasks, trace, keys, status, acker, now);
    forall r | r in tasks && Hit(trace, keys, r)
      ensures FieldsFit(after[r]) <==> match status
                                       case Queued => tasks[r].status == Queued && acker == None
                                       case Running => tasks[r].status == Running
                                       case _ => true
    {
      assert FieldsFit(tasks[r]);
      assert after[r] == Marked(tasks[r], status, acker, now);
    }
    if AllFit(after) {
      assert forall r :: r in tasks && Hit(trace, keys, r) ==> FieldsFit(after[r]);
    }
  }

  lemma StepFit(t: Tables, op: Op)
    requires Possible(t, op) && AllFit(t.tasks)
    ensures AllFit(Step(t, op).tasks) <==> KeepsFit(t, op)
  {
    match op
    case EnqueueOp(user, trace, specs, now) =>
      forall r | r in Step(t, op).tasks
        ensures FieldsFit(Step(t, op).tasks[r])
      {
        EnqueueRow(t.tasks, user, trace, specs, now, r);
      }
    case ClaimOp(_, _, _, _, _, _, _) =>
      HandedRows(t, op);
    case MarkOp(trace, keys, _, acker, now) =>
      MarkFit(t.tasks, trace, KeptKeys(keys), op.Outcome(), acker, now);
    case HeartbeatOp(_, _, _, _, _, _) =>
    case SweepOp(_, _, _, _, _, _) =>
      SweepFit(t, op);
  }

  lemma SweepFit(t: Tables, op: Op)
    requires Possible(t, op) && op.SweepOp? && AllFit(t.tasks)
    ensures AllFit(Step(t, op).tasks)
  {
    forall r | r in t.tasks
      ensures FieldsFit(Step(t, op).tasks[r])
    {
      if r in op.rows {
        assert InScope(t.tasks, op.user, op.trace, Running, r);
      }
    }
  }

  predicate FitRun(ops: seq<Op>) {
    ops != [] ==> FitRun(Init(ops)) && KeepsFit(Exec(Init(ops)), Last(ops))
  }

  predicate AlwaysFits(ops: seq<Op>) {
    AllFit(Exec(ops).tasks) && (ops != [] ==> AlwaysFits(Init(ops)))
  }

  /** The fields fit in all states of a run exactly when each acknowledgement met MarkFits. */
  lemma {:induction false} LifecycleFields(ops: seq<Op>)
    requires Run(ops)
    ensures AlwaysFits(ops) <==> FitRun(ops)
  {
    if ops != [] {
      LifecycleFields(Init(ops));
      if AlwaysFits(Init(ops)) {
        StepFit(Exec(Init(ops)), Last(ops));
      }
    }
  }

  /** The guard is needed: a queued task marked "running" runs with no worker and no start time. */
  lemma UnguardedAckSpoilsFields()
    ensures var ops := [EnqueueOp("u", "t", [TaskSpec("a", "general", None, [])], 0), MarkOp("t", ["a"], "running", None, 1)];
            Run(ops) && StatusIs(Exec(ops).tasks, TaskRef("t", "a"), Running) && !AllFit(Exec(ops).tasks)
  {
    var enqueue, mark := EnqueueOp("u", "t", [TaskSpec("a", "general", None, [])], 0), MarkOp("t", ["a"], "running", None, 1);
    assert Init([enqueue]) == [] && Init([enqueue, mark]) == [enqueue];
    OneRow(enqueue.specs[0]);
    MarkedRunning(Exec([enqueue]), mark, TaskRef("t", "a"));
  }

  lemma OneRow(spec: TaskSpec)
    requires spec.key != ""
    ensures Step(EMPTY, EnqueueOp("u", "t", [spec], 0)).tasks == map[TaskRef("t", spec.key) := NewTask("u", spec, 0)]
  {
    assert Init([spec]) == [] && EnqueueAll(EMPTY.tasks, "u", "t", [], 0) == EMPTY.tasks;
  }

  lemma MarkedRunning(t: Tables, mark: Op, r: TaskRef)
    requires mark.MarkOp? && mark.text == "running" && mark.acker == None && mark.trace == r.trace && mark.keys == [r.key] && r.key != ""
    requires StatusIs(t.tasks, r, Queued) && FieldsFit(t.tasks[r])
    ensures StatusIs(Step(t, mark).tasks, r, Running) && !FieldsFit(Step(t, mark).tasks[r])
  {
    StatusTexts(mark.text);
    SingleKey(t.tasks, r.trace, mark.keys, r.key);
    RunsWithoutWorker(t.tasks, r, mark.keys, mark.now);
  }

  lemma RunsWithoutWorker(tasks: TaskTable, r: TaskRef, keys: seq<string>, now: int)
    requires StatusIs(tasks, r, Queued) && FieldsFit(tasks[r]) && r.key in keys
    ensures var after := MarkTasks(tasks, r.trace, keys, Running, None, now);
      StatusIs(after, r, Running) && !FieldsFit(after[r])
  {
  }

  /** In particular they fit throughout every run whose acknowledgements are terminal. */
  lemma {:induction false} TerminalAcksKeepFields(ops: seq<Op>)
    requires Run(ops)
    requires forall i :: 0 <= i < |ops| && ops[i].MarkOp? ==> ops[i].Outcome().Terminal()
    ensures AlwaysFits(ops)
  {
    if ops != [] {
      TerminalAcksKeepFields(Init(ops));
      assert Last(ops) == ops[|ops| - 1];
      StepFit(Exec(Init(ops)), Last(ops));
    }
  }

  // ----- stale sweep -----

  lemma {:induction false} SweepLists(tasks: TaskTable, rows: seq<TaskRef>, staleAfter: int, maxAttempts: int, now: int)
    ensures forall r :: r in FailedRows(tasks, rows, staleAfter, maxAttempts, now) <==> r in rows && Fails(tasks, r, staleAfter, maxAttempts, now)
    ensures forall r :: r in RequeuedRows(tasks, rows, staleAfter, maxAttempts, now) <==> r in rows && Returns(tasks, r, staleAfter, maxAttempts, now)
    ensures Distinct(rows) ==> Distinct(FailedRows(tasks, rows, staleAfter, maxAttempts, now))
    ensures Distinct(rows) ==> Distinct(RequeuedRows(tasks, rows, staleAfter, maxAttempts, now))
  {
    if rows != [] {
      SweepLists(tasks, Init(rows), staleAfter, maxAttempts, now);
      assert rows == Init(rows) + [Last(rows)];
    }
  }

  /**
   A sweep sends each stale running task of its user and trace to exactly one of the two lists: to "failed",
   with a finish time, when its attempts are used up, else back to the queue. All other tasks are untouched,
   and afterwards no stale running task is left.
   */
  lemma SweepSplitsStaleTasks(t: Tables, op: Op, r: TaskRef)
    requires Possible(t, op) && op.SweepOp? && r in t.tasks
    ensures var after := Step(t, op).tasks[r];
      var failed := FailedRows(t.tasks, op.rows, op.staleAfter, op.maxAttempts, op.now);
      var requeued := RequeuedRows(t.tasks, op.rows, op.staleAfter, op.maxAttempts, op.now);
      var swept := InScope(t.tasks, op.user, op.trace, Running, r) && Stale(t.tasks[r], op.staleAfter, op.now);
      && Distinct(failed) && Distinct(requeued)
      && (swept <==> r in failed || r in requeued)
      && !(r in failed && r in requeued)
      && (r in failed <==> swept && t.tasks[r].attempts >= Max(1, op.maxAttempts))
      && (r in failed ==> after.status == Failed && after.finishedAt == Some(op.now))
      && (r in requeued ==> after.status == Queued && after.worker == None && after.startedAt == None)
      && (!swept ==> after == t.tasks[r])
      && after.attempts == t.tasks[r].attempts
      && !(InScope(Step(t, op).tasks, op.user, op.trace, Running, r) && Stale(after, op.staleAfter, op.now))
  {
    SweepLists(t.tasks, op.rows, op.staleAfter, op.maxAttempts, op.now);
    assert r in op.rows <==> InScope(t.tasks, op.user, op.trace, Running, r);
  }
}
