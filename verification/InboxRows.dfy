/**
 What each call does to each row, field by field, and what the rows of a reachable state say about the calls
 before it.
 */
module InboxRows {
  import opened Common
  import opened InboxModel
  import opened Inbox
  import opened InboxRuns
  import opened InboxWorkers
  import InboxLifecycle
  import Slug

  // ----- enqueue -----

  function LastSpec(specs: seq<TaskSpec>, key: string): Option<TaskSpec> {
    if specs == [] then None
    else if Last(specs).key == key then Some(Last(specs))
    else LastSpec(Init(specs), key)
  }

  predicate Enqueues(op: Op, r: TaskRef) {
    op.EnqueueOp? && op.trace == r.trace && r.key != "" && LastSpec(op.specs, r.key).Some?
  }

  /** Lane, priority and dependencies are those of the spec; no priority, or zero, means 100. */
  predicate TermsOf(t: Task, spec: TaskSpec) {
    && t.lane == spec.lane && t.deps == spec.deps
    && t.priority == match spec.priority case None => 100 case Some(p) => if p == 0 then 100 else p
  }

  /** A waiting row: nothing is left of an earlier claim but the attempts. */
  predicate Waits(t: Task) {
    t.status == Queued && t.worker == None && t.startedAt == None && t.finishedAt == None
  }

  lemma {:induction false} EnqueueAllRow(tasks: TaskTable, user: string, trace: string, specs: seq<TaskSpec>, now: int, r: TaskRef)
    ensures var after := EnqueueAll(tasks, user, trace, specs, now);
      if trace == r.trace && r.key != "" && LastSpec(specs, r.key).Some? then
        && r in after && TermsOf(after[r], LastSpec(specs, r.key).value) && Waits(after[r]) && after[r].updatedAt == now
        && (r in tasks ==> after[r].user == tasks[r].user && after[r].createdAt == tasks[r].createdAt && after[r].attempts == tasks[r].attempts)
        && (r !in tasks ==> after[r].user == user && after[r].createdAt == now && after[r].attempts == 0)
      else (r in after <==> r in tasks) && (r in tasks ==> after[r] == tasks[r])
  {
    if specs != [] {
      EnqueueAllRow(tasks, user, trace, Init(specs), now, r);
    }
  }

  // ----- claim -----

  /** A claimed row belongs to the worker from this moment on; what was enqueued stays. */
  lemma ClaimRow(t: Tables, op: Op, r: TaskRef)
    requires Possible(t, op) && op.ClaimOp? && r in t.tasks
    ensures var before, after := t.tasks[r], Step(t, op).tasks[r];
      if r in Handed(t, op) then
        && before.user == op.user && r.trace == op.trace
        && before.status == Queued && after.status == Running && after.worker == Some(op.worker)
        && after.startedAt == Some(op.now) && after.updatedAt == op.now && after.attempts == before.attempts + 1
        && after == before.(status := after.status, worker := after.worker, startedAt := after.startedAt,
                            updatedAt := after.updatedAt, attempts := after.attempts)
      else after == before
  {
    HandedRows(t, op);
  }

  // ----- acknowledge -----

  lemma {:induction false} KeptKeysAre(keys: seq<string>, key: string)
    ensures key in KeptKeys(keys) <==> key in keys && key != ""
  {
    if keys != [] {
      KeptKeysAre(Init(keys), key);
      assert keys == Init(keys) + [Last(keys)];
    }
  }

  predicate Acks(op: Op, r: TaskRef) {
    op.MarkOp? && op.trace == r.trace && r.key in op.keys && r.key != ""
  }

  /** The text of the status an acknowledgement leaves behind. */
  function StoredText(text: string): string {
    var clean := Slug.Lower(Slug.Strip(text));
    if clean in TEXTS then clean else "failed"
  }

  lemma MarkRow(t: Tables, op: Op, r: TaskRef)
    requires op.MarkOp? && r in t.tasks
    ensures r in Step(t, op).tasks
    ensures var before, after := t.tasks[r], Step(t, op).tasks[r];
      if Acks(op, r) then
        && TextOf(after.status) == StoredText(op.text) && after.updatedAt == op.now
        && after.worker == (if op.acker == None then before.worker else op.acker)
        && after.finishedAt == (if StoredText(op.text) in {"completed", "failed", "canceled"} then Some(op.now) else before.finishedAt)
        && after == before.(status := after.status, worker := after.worker, updatedAt := after.updatedAt, finishedAt := after.finishedAt)
      else after == before
  {
    StatusTexts(op.text);
    KeptKeysAre(op.keys, r.key);
    assert r.key in KeptKeys(op.keys) ==> KeptKeys(op.keys) != [];
  }

  /** Acknowledging "completed" completes the listed tasks and readies each task whose other dependencies are completed. */
  lemma CompletionReadies(ops: seq<Op>, op: Op, q: TaskRef)
    requires op.MarkOp? && op.text == "completed" && q in Exec(ops).tasks
    ensures var before, after := Exec(ops).tasks, Exec(ops + [op]).tasks;
      && after.Keys == before.Keys
      && (Acks(op, q) ==> after[q].status == Completed)
      && ((forall d :: d in before[q].deps ==>
             StatusIs(before, TaskRef(q.trace, d), Completed) || (TaskRef(q.trace, d) in before && Acks(op, TaskRef(q.trace, d))))
          ==> Ready(after, q))
  {
    var t, after := Exec(ops), Exec(ops + [op]).tasks;
    Snoc(ops, [op]);
    assert Init([op]) == [] && ops + [] == ops;
    assert after == Step(t, op).tasks;
    CompletedText(op.text);
    MarkRow(t, op, q);
    forall d | d in t.tasks[q].deps && TaskRef(q.trace, d) in t.tasks
      ensures Acks(op, TaskRef(q.trace, d)) || StatusIs(t.tasks, TaskRef(q.trace, d), Completed) ==> Done(after, TaskRef(q.trace, d))
    {
      MarkRow(t, op, TaskRef(q.trace, d));
    }
  }

  lemma CompletedText(text: string)
    requires text == "completed"
    ensures NormalizeStatus(text) == Completed && StoredText(text) == "completed"
  {
    Slug.PlainText(text);
    StatusTexts(text);
  }

  /** And every worker that is known gets the number of rows it acknowledged added to its completions. */
  lemma CompletionCounts(ops: seq<Op>, op: Op, id: string)
    requires op.MarkOp? && op.text == "completed" && op.acker == Some(id) && id != "" && id in Exec(ops).workers
    ensures id in Exec(ops + [op]).workers
    ensures Exec(ops + [op]).workers[id].completed == Exec(ops).workers[id].completed + HitCount(Exec(ops).tasks, op.trace, KeptKeys(op.keys))
    ensures Exec(ops + [op]).workers[id].failed == Exec(ops).workers[id].failed
    ensures Exec(ops + [op]).workers[id].claimed == Exec(ops).workers[id].claimed
  {
    var t := Exec(ops);
    Snoc(ops, [op]);
    assert Init([op]) == [] && ops + [] == ops;
    CompletedText(op.text);
    AckCounts(t.workers, op.acker, Completed, HitCount(t.tasks, op.trace, KeptKeys(op.keys)), op.now, id, Completions);
    AckCounts(t.workers, op.acker, Completed, HitCount(t.tasks, op.trace, KeptKeys(op.keys)), op.now, id, Failures);
    AckCounts(t.workers, op.acker, Completed, HitCount(t.tasks, op.trace, KeptKeys(op.keys)), op.now, id, Claims);
  }

  /** For distinct keys that number is the number of acknowledged rows. */
  lemma {:induction false} HitsAreRows(tasks: TaskTable, trace: string, keys: seq<string>)
    requires Distinct(keys)
    ensures HitCount(tasks, trace, keys) == |set r | r in tasks && r.trace == trace && r.key in keys|
  {
    var hits := set r | r in tasks && r.trace == trace && r.key in keys;
    if keys == [] {
      assert hits == {};
    } else {
      var before, key := Init(keys), Last(keys);
      HitsAreRows(tasks, trace, before);
      assert keys == before + [key];
      var rest := set r | r in tasks && r.trace == trace && r.key in before;
      assert TaskRef(trace, key) !in rest;
      if TaskRef(trace, key) in tasks {
        assert hits == rest + {TaskRef(trace, key)};
      } else {
        assert hits == rest;
      }
    }
  }

  // ----- sweep -----

  /** Seconds since the row was last written, truncated towards zero, reach the stale age of at least 30. */
  predicate TimedOut(updatedAt: int, staleAfter: int, now: int) {
    now - updatedAt >= 1_000_000 * Max(30, staleAfter)
  }

  lemma SweepRow(t: Tables, op: Op, r: TaskRef)
    requires Possible(t, op) && op.SweepOp? && r in t.tasks
    ensures var before, after := t.tasks[r], Step(t, op).tasks[r];
      if r.trace == op.trace && before.user == op.user && before.status == Running && TimedOut(before.updatedAt, op.staleAfter, op.now)
      then
        if before.attempts >= op.maxAttempts && before.attempts >= 1 then
          && after.status == Failed && after.finishedAt == Some(op.now) && after.updatedAt == op.now && after.worker == before.worker
          && after == before.(status := after.status, finishedAt := after.finishedAt, updatedAt := after.updatedAt)
        else
          && after.status == Queued && after.worker == None && after.startedAt == None && after.updatedAt == op.now
          && after == before.(status := after.status, worker := None, startedAt := None, updatedAt := after.updatedAt)
      else after == before
  {
    AgeReached(t.tasks[r].updatedAt, op.staleAfter, op.now);
  }

  lemma AgeReached(updatedAt: int, staleAfter: int, now: int)
    ensures AgeSeconds(now, updatedAt) >= Max(30, staleAfter) <==> TimedOut(updatedAt, staleAfter, now)
  {
  }

  // ----- leases over runs -----

  /** No enqueue and no acknowledgement of this key. */
  predicate LeavesKey(op: Op, r: TaskRef) {
    !Enqueues(op, r) && !Acks(op, r)
  }

  /** A sweep that comes before the lease is over; other calls do not matter. */
  predicate WithinLease(op: Op, start: int) {
    op.SweepOp? ==> !TimedOut(start, op.staleAfter, op.now)
  }

  predicate Leased(tasks: TaskTable, r: TaskRef, user: string, worker: string, start: int) {
    && r in tasks && tasks[r].status == Running && tasks[r].worker == Some(worker) && tasks[r].user == user
    && tasks[r].startedAt == Some(start) && tasks[r].updatedAt == start
  }

  lemma StaysLeased(t: Tables, op: Op, r: TaskRef, user: string, worker: string, start: int)
    requires Possible(t, op) && Leased(t.tasks, r, user, worker, start) && LeavesKey(op, r) && WithinLease(op, start)
    ensures Leased(Step(t, op).tasks, r, user, worker, start)
  {
    match op
    case EnqueueOp(u, trace, specs, now) => EnqueueAllRow(t.tasks, u, trace, specs, now, r);
    case HeartbeatOp(_, _, _, _, _, _) =>
    case ClaimOp(_, _, _, _, _, _, _) => ClaimRow(t, op, r);
    case MarkOp(_, _, _, _, _) => MarkRow(t, op, r);
    case SweepOp(_, _, _, _, _, _) => SweepRow(t, op, r);
  }

  lemma {:induction false} RunPrefix(ops: seq<Op>, more: seq<Op>)
    requires Run(ops + more)
    ensures Run(ops)
  {
    if more == [] {
      assert ops + more == ops;
    } else {
      Snoc(ops, more);
      RunPrefix(ops, Init(more));
    }
  }

  lemma {:induction false} LeaseHolds(before: seq<Op>, claim: Op, more: seq<Op>, r: TaskRef)
    requires Run(before + [claim] + more) && claim.ClaimOp? && r in Handed(Exec(before), claim)
    requires forall i :: 0 <= i < |more| ==> LeavesKey(more[i], r) && WithinLease(more[i], claim.now)
    ensures Leased(Exec(before + [claim] + more).tasks, r, claim.user, claim.worker, claim.now)
    decreases |more|
  {
    var ops := before + [claim];
    if more == [] {
      assert ops + more == ops;
      Snoc(before, [claim]);
      assert Init([claim]) == [] && before + [] == before;
      HandedRows(Exec(before), claim);
      ClaimRow(Exec(before), claim, r);
    } else {
      Snoc(ops, more);
      LeaseHolds(before, claim, Init(more), r);
      StaysLeased(Exec(ops + Init(more)), Last(more), r, claim.user, claim.worker, claim.now);
    }
  }

  /**
   A task handed out at t and neither enqueued nor acknowledged since is running under that worker as long as
   every sweep came before t plus its stale age; a sweep of its user and trace takes it exactly from then on.
   */
  lemma {:induction false} LeaseLaw(before: seq<Op>, claim: Op, more: seq<Op>, sweep: Op, r: TaskRef)
    requires Run(before + [claim] + more) && claim.ClaimOp? && r in Handed(Exec(before), claim)
    requires forall i :: 0 <= i < |more| ==> LeavesKey(more[i], r) && WithinLease(more[i], claim.now)
    requires sweep.SweepOp? && sweep.user == claim.user && sweep.trace == claim.trace
    requires Possible(Exec(before + [claim] + more), sweep)
    ensures var t := Exec(before + [claim] + more);
      && r in t.tasks && t.tasks[r].status == Running && t.tasks[r].worker == Some(claim.worker)
      && (r in FailedRows(t.tasks, sweep.rows, sweep.staleAfter, sweep.maxAttempts, sweep.now)
          || r in RequeuedRows(t.tasks, sweep.rows, sweep.staleAfter, sweep.maxAttempts, sweep.now)
          <==> sweep.now - claim.now >= 1_000_000 * Max(30, sweep.staleAfter))
      && (Step(t, sweep).tasks[r].status == Running <==> sweep.now - claim.now < 1_000_000 * Max(30, sweep.staleAfter))
  {
    var t := Exec(before + [claim] + more);
    LeaseHolds(before, claim, more, r);
    assert r.trace == claim.trace by {
      RunPrefix(before + [claim], more);
      Snoc(before, [claim]);
      assert Init([claim]) == [] && before + [] == before;
      HandedRows(Exec(before), claim);
    }
    SweepRow(t, sweep, r);
    InboxLifecycle.SweepLists(t.tasks, sweep.rows, sweep.staleAfter, sweep.maxAttempts, sweep.now);
    AgeReached(claim.now, sweep.staleAfter, sweep.now);
  }

  // ----- where rows come from -----

  /** The spec of the last enqueue of this row. */
  function Enqueued(ops: seq<Op>, r: TaskRef): Option<TaskSpec> {
    if ops == [] then None
    else if Enqueues(Last(ops), r) then LastSpec(Last(ops).specs, r.key)
    else Enqueued(Init(ops), r)
  }

  /** The call that enqueued the row first. */
  function Creation(ops: seq<Op>, r: TaskRef): Option<Op> {
    if ops == [] then None
    else if Creation(Init(ops), r).Some? then Creation(Init(ops), r)
    else if Enqueues(Last(ops), r) then Some(Last(ops))
    else None
  }

  predicate RowFrom(tasks: TaskTable, r: TaskRef, spec: Option<TaskSpec>, creation: Option<Op>) {
    && (creation.Some? ==> creation.value.EnqueueOp?)
    && (r in tasks <==> spec.Some?) && (r in tasks <==> creation.Some?)
    && (r in tasks ==> TermsOf(tasks[r], spec.value) && tasks[r].user == creation.value.user && tasks[r].createdAt == creation.value.now)
  }

  lemma StepRowFrom(t: Tables, op: Op, r: TaskRef, spec: Option<TaskSpec>, creation: Option<Op>)
    requires Possible(t, op) && RowFrom(t.tasks, r, spec, creation)
    ensures RowFrom(Step(t, op).tasks, r, if Enqueues(op, r) then LastSpec(op.specs, r.key) else spec,
                    if creation.Some? then creation else if Enqueues(op, r) then Some(op) else None)
  {
    match op
    case EnqueueOp(u, trace, specs, now) => EnqueueAllRow(t.tasks, u, trace, specs, now, r);
    case HeartbeatOp(_, _, _, _, _, _) =>
    case ClaimOp(_, _, _, _, _, _, _) => if r in t.tasks { ClaimRow(t, op, r); }
    case MarkOp(_, _, _, _, _) => if r in t.tasks { MarkRow(t, op, r); }
    case SweepOp(_, _, _, _, _, _) => if r in t.tasks { SweepRow(t, op, r); }
  }

  /**
   In every reachable state the table holds exactly the rows enqueued so far: with the lane, priority and
   dependencies of the last spec for the key, and the user and time of the first.
   */
  lemma {:induction false} RowsAreEnqueued(ops: seq<Op>, r: TaskRef)
    requires Run(ops)
    ensures RowFrom(Exec(ops).tasks, r, Enqueued(ops, r), Creation(ops, r))
  {
    if ops != [] {
      RowsAreEnqueued(Init(ops), r);
      StepRowFrom(Exec(Init(ops)), Last(ops), r, Enqueued(Init(ops), r), Creation(Init(ops), r));
    }
  }

  // ----- workers -----

  predicate Seen(w: Worker, status: string, now: int) {
    w.status == status && w.heartbeatAt == now
  }

  predicate SameProfile(w: Worker, v: Worker) {
    w.user == v.user && w.trace == v.trace && w.lanes == v.lanes
  }

  /** Heartbeats and claims write the whole profile. */
  lemma HeartbeatWorker(t: Tables, op: Op, id: string)
    requires op.HeartbeatOp? || op.ClaimOp?
    ensures var after := Step(t, op).workers;
      if op.worker == id then
        && id in after && after[id].user == op.user && after[id].trace == op.trace && after[id].lanes == op.lanes
        && Seen(after[id], if op.ClaimOp? then "running" else op.text, op.now)
      else (id in after <==> id in t.workers) && (id in t.workers ==> after[id] == t.workers[id])
  {
  }

  lemma CreditedWorker(workers: map<string, Worker>, acker: Option<string>, status: Status, count: nat, now: int, id: string)
    ensures CreditWorker(workers, acker, status, count, now).Keys == workers.Keys
    ensures id in workers ==>
      var after := CreditWorker(workers, acker, status, count, now)[id];
      && SameProfile(workers[id], after)
      && if acker == Some(id) && id != "" && TextOf(status) in {"completed", "failed", "canceled"}
         then Seen(after, if TextOf(status) == "canceled" then "idle" else "running", now)
         else after == workers[id]
  {
  }

  /** An outcome shows on a known worker that acknowledged it: busy after a completion or failure, idle after a cancellation. */
  lemma AckWorker(t: Tables, op: Op, id: string)
    requires op.MarkOp?
    ensures Step(t, op).workers.Keys == t.workers.Keys
    ensures id in t.workers ==>
      var before, after := t.workers[id], Step(t, op).workers[id];
      && SameProfile(before, after)
      && if op.acker == Some(id) && id != "" && KeptKeys(op.keys) != [] && StoredText(op.text) in {"completed", "failed", "canceled"}
         then Seen(after, if StoredText(op.text) == "canceled" then "idle" else "running", op.now)
         else after == before
  {
    var status, count := op.Outcome(), HitCount(t.tasks, op.trace, KeptKeys(op.keys));
    assert TextOf(status) == StoredText(op.text) by {
      StatusTexts(op.text);
    }
    CreditedWorker(t.workers, op.acker, status, count, op.now, id);
  }

  lemma {:induction false} BlameWorker(workers: map<string, Worker>, tasks: TaskTable, failed: seq<TaskRef>, now: int, id: string)
    requires forall r :: r in failed ==> r in tasks
    ensures BlameWorkers(workers, tasks, failed, now).Keys == workers.Keys
    ensures id in workers ==>
      var after := BlameWorkers(workers, tasks, failed, now)[id];
      && SameProfile(workers[id], after)
      && if id != "" && LostBy(tasks, failed, id) > 0 then Seen(after, "running", now) else after == workers[id]
  {
    if failed != [] {
      BlameWorker(workers, tasks, Init(failed), now, id);
      CreditedWorker(BlameWorkers(workers, tasks, Init(failed), now), KnownWorker(tasks[Last(failed)]), Failed, 1, now, id);
    }
  }

  /** A sweep shows on the workers whose tasks it failed, and on nobody else. */
  lemma SweepWorker(t: Tables, op: Op, id: string)
    requires op.SweepOp?
    ensures Step(t, op).workers.Keys == t.workers.Keys
    ensures id in t.workers ==>
      var before, after := t.workers[id], Step(t, op).workers[id];
      && SameProfile(before, after)
      && if id != "" && LostBy(t.tasks, FailedRows(t.tasks, op.rows, op.staleAfter, op.maxAttempts, op.now), id) > 0
         then Seen(after, "running", op.now) else after == before
  {
    FailedRowsExist(t.tasks, op.rows, op.staleAfter, op.maxAttempts, op.now);
    BlameWorker(t.workers, t.tasks, FailedRows(t.tasks, op.rows, op.staleAfter, op.maxAttempts, op.now), op.now, id);
  }
}
