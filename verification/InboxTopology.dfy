/** Runs in which every task is enqueued once and only running tasks are acknowledged follow the dependency graph. */
module InboxTopology {
  import opened Common
  import opened InboxModel
  import opened InboxRuns
  import opened InboxOrder

  /** Fresh keys only, and acknowledgements of running tasks only. */
  predicate Disciplined(t: Tables, op: Op) {
    match op
    case EnqueueOp(_, trace, specs, _) => forall r :: r in t.tasks ==> !Takes(trace, KeysOf(specs), r)
    case MarkOp(trace, keys, _, _, _) => forall r :: r in t.tasks && Takes(trace, KeptKeys(keys), r) ==> t.tasks[r].status == Running
    case _ => true
  }

  ghost predicate DisciplinedRun(ops: seq<Op>) {
    ops != [] ==> DisciplinedRun(Init(ops)) && Possible(Exec(Init(ops)), Last(ops)) && Disciplined(Exec(Init(ops)), Last(ops))
  }

  lemma DisciplineKeepsOrder(t: Tables, op: Op)
    requires Ordered(t.tasks) && Disciplined(t, op)
    ensures KeepsOrder(t, op)
  {
    if op.MarkOp? {
      var keys := KeptKeys(op.keys);
      forall r | r in t.tasks && t.tasks[r].status != Queued
        ensures !TakesDep(op.trace, keys, t.tasks, r)
      {
        assert Ready(t.tasks, r);
        assert forall d :: d in t.tasks[r].deps ==> Done(t.tasks, TaskRef(r.trace, d));
      }
    } else if op.EnqueueOp? {
      forall r | r in t.tasks && t.tasks[r].status != Queued
        ensures !TakesDep(op.trace, KeysOf(op.specs), t.tasks, r)
      {
        assert Ready(t.tasks, r);
      }
    }
  }

  lemma {:induction false} DisciplinedRunsAreOrdered(ops: seq<Op>)
    requires DisciplinedRun(ops)
    ensures Run(ops) && Ordered(Exec(ops).tasks)
  {
    if ops != [] {
      DisciplinedRunsAreOrdered(Init(ops));
      DisciplineKeepsOrder(Exec(Init(ops)), Last(ops));
      StepOrder(Exec(Init(ops)), Last(ops));
    }
  }

  /** What a disciplined step can do to an existing row. */
  lemma DisciplinedRow(t: Tables, op: Op, r: TaskRef)
    requires Possible(t, op) && Disciplined(t, op) && r in t.tasks
    ensures var after := Step(t, op).tasks;
      && r in after && after[r].deps == t.tasks[r].deps
      && (t.tasks[r].status == Completed ==> after[r].status == Completed)
      && (t.tasks[r].status == Queued && after[r].status != Queued ==> after[r].status == Running && Ready(t.tasks, r))
  {
    match op
    case EnqueueOp(user, trace, specs, now) =>
      EnqueueRow(t.tasks, user, trace, specs, now, r);
    case ClaimOp(_, _, _, _, _, _, _) =>
      HandedRows(t, op);
    case MarkOp(_, keys, _, _, _) =>
      KeptKeysNonEmpty(keys);
    case HeartbeatOp(_, _, _, _, _, _) =>
    case SweepOp(_, _, _, _, _, _) =>
  }

  /** The number of calls after which the task was first completed for good. */
  function DoneAt(ops: seq<Op>, r: TaskRef): nat {
    if ops == [] then 0
    else if Done(Exec(Init(ops)).tasks, r) then DoneAt(Init(ops), r)
    else |ops|
  }

  lemma {:induction false} DoneAtBound(ops: seq<Op>, r: TaskRef)
    ensures DoneAt(ops, r) <= |ops|
  {
    if ops != [] {
      DoneAtBound(Init(ops), r);
    }
  }

  /** Topological execution: a task out of the queue has its dependencies completed, and completed ones strictly earlier. */
  lemma {:induction false} TopologicalExecution(ops: seq<Op>, r: TaskRef, d: string)
    requires DisciplinedRun(ops)
    requires r in Exec(ops).tasks && Exec(ops).tasks[r].status != Queued && d in Exec(ops).tasks[r].deps
    ensures Done(Exec(ops).tasks, TaskRef(r.trace, d))
    ensures Done(Exec(ops).tasks, r) ==> DoneAt(ops, TaskRef(r.trace, d)) < DoneAt(ops, r)
  {
    DisciplinedRunsAreOrdered(ops);
    assert Ready(Exec(ops).tasks, r);
    if Done(Exec(ops).tasks, r) {
      var init, op := Init(ops), Last(ops);
      var t := Exec(init);
      if r in t.tasks {
        DisciplinedRow(t, op, r);
        assert t.tasks[r].status != Queued;
        TopologicalExecution(init, r, d);
        DoneAtBound(init, TaskRef(r.trace, d));
      } else {
        NewRowsAreQueued(t, op, r);
      }
    }
  }

  lemma NewRowsAreQueued(t: Tables, op: Op, r: TaskRef)
    requires r !in t.tasks && r in Step(t, op).tasks
    ensures Step(t, op).tasks[r].status == Queued
  {
    if op.EnqueueOp? {
      EnqueueRow(t.tasks, op.user, op.trace, op.specs, op.now, r);
    }
  }

  /** Each member that is enqueued waits for another member; members that were never enqueued are allowed. */
  predicate Knotted(tasks: TaskTable, knot: set<TaskRef>) {
    forall r {:trigger WaitsWithin(tasks, knot, r)} :: r in knot && r in tasks ==> WaitsWithin(tasks, knot, r)
  }

  predicate WaitsWithin(tasks: TaskTable, knot: set<TaskRef>, r: TaskRef)
    requires r in tasks
  {
    exists d :: d in tasks[r].deps && TaskRef(r.trace, d) in knot
  }

  /** No task of such a set - a dependency cycle, or tasks waiting for a key nobody enqueued - ever leaves the queue. */
  lemma KnotsStayQueued(ops: seq<Op>, knot: set<TaskRef>, r: TaskRef)
    requires DisciplinedRun(ops) && Knotted(Exec(ops).tasks, knot)
    requires r in knot && r in Exec(ops).tasks
    ensures Exec(ops).tasks[r].status == Queued
  {
    if Exec(ops).tasks[r].status != Queued {
      assert WaitsWithin(Exec(ops).tasks, knot, r);
      var d :| d in Exec(ops).tasks[r].deps && TaskRef(r.trace, d) in knot;
      TopologicalExecution(ops, r, d);
      KnotNotDone(ops, knot, TaskRef(r.trace, d));
    }
  }

  lemma {:induction false} KnotNotDone(ops: seq<Op>, knot: set<TaskRef>, r: TaskRef)
    requires DisciplinedRun(ops) && Knotted(Exec(ops).tasks, knot) && r in knot
    ensures !Done(Exec(ops).tasks, r)
    decreases DoneAt(ops, r)
  {
    if Done(Exec(ops).tasks, r) {
      assert WaitsWithin(Exec(ops).tasks, knot, r);
      var d :| d in Exec(ops).tasks[r].deps && TaskRef(r.trace, d) in knot;
      TopologicalExecution(ops, r, d);
      KnotNotDone(ops, knot, TaskRef(r.trace, d));
    }
  }

  lemma KnotPersists(t: Tables, op: Op, cycle: set<TaskRef>)
    requires Possible(t, op) && Disciplined(t, op)
    requires Knotted(t.tasks, cycle) && forall r :: r in cycle ==> r in t.tasks
    ensures Knotted(Step(t, op).tasks, cycle) && forall r :: r in cycle ==> r in Step(t, op).tasks
  {
    forall r | r in cycle
      ensures r in Step(t, op).tasks && WaitsWithin(Step(t, op).tasks, cycle, r)
    {
      DisciplinedRow(t, op, r);
      assert WaitsWithin(t.tasks, cycle, r);
    }
  }

  /** A cycle whose members are all enqueued stays queued in every continuation of the run. */
  lemma {:induction false} CyclesStayQueued(ops: seq<Op>, more: seq<Op>, cycle: set<TaskRef>)
    requires DisciplinedRun(ops + more)
    requires Knotted(Exec(ops).tasks, cycle) && forall r :: r in cycle ==> r in Exec(ops).tasks
    ensures Knotted(Exec(ops + more).tasks, cycle)
    ensures forall r :: r in cycle ==> StatusIs(Exec(ops + more).tasks, r, Queued)
    decreases |more|
  {
    if more == [] {
      assert ops + more == ops;
    } else {
      assert Init(ops + more) == ops + Init(more);
      CyclesStayQueued(ops, Init(more), cycle);
      KnotPersists(Exec(ops + Init(more)), Last(ops + more), cycle);
    }
    forall r | r in cycle
      ensures StatusIs(Exec(ops + more).tasks, r, Queued)
    {
      KnotsStayQueued(ops + more, cycle, r);
    }
  }

  /**
   Conversely, when the dependencies of a trace are all enqueued and acyclic (`level` falls along them) and every
   task of it is queued or completed, some queued task is ready: the queue of such a trace never jams.
   */
  lemma {:induction false} AcyclicTraceNeverJams(tasks: TaskTable, trace: string, level: map<TaskRef, nat>, r: TaskRef) returns (next: TaskRef)
    requires level.Keys == tasks.Keys
    requires forall q, d :: q in tasks && q.trace == trace && d in tasks[q].deps ==>
               TaskRef(trace, d) in tasks && level[TaskRef(trace, d)] < level[q]
    requires forall q :: q in tasks && q.trace == trace ==> tasks[q].status == Queued || tasks[q].status == Completed
    requires r in tasks && r.trace == trace && tasks[r].status == Queued
    ensures next in tasks && next.trace == trace && tasks[next].status == Queued && Ready(tasks, next)
    decreases if r in level then level[r] else 0
  {
    if Ready(tasks, r) {
      next := r;
    } else {
      var d :| d in tasks[r].deps && !Done(tasks, TaskRef(r.trace, d));
      next := AcyclicTraceNeverJams(tasks, trace, level, TaskRef(r.trace, d));
    }
  }
}
