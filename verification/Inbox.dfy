/**
 The task inbox as an object over its two tables. Every method is the loop or the statement sequence
 of the source function and is tied to the one-step function of InboxModel.
 A `rows` argument is the answer of a SELECT whose order the database may choose.
 */
module Inbox {
  import opened Common
  import opened InboxModel
  import Slug

  class Inbox {
    var tasks: TaskTable
    var workers: map<string, Worker>

    /** No row has an empty key: enqueue skips such tasks. */
    ghost predicate Valid()
      reads this
    {
      Keyed(tasks)
    }

    ghost function Contents(): Tables
      reads this
    {
      Tables(tasks, workers)
    }

    constructor ()
      ensures Valid() && Contents() == EMPTY
    {
      tasks, workers := map[], map[];
    }

    method Heartbeat(worker: string, user: string, trace: string, lanes: set<string>, status: string, now: int)
      modifies this
      ensures tasks == old(tasks)
      ensures workers == Touched(old(workers), worker, user, trace, lanes, status, now)
    {
      if worker in workers {
        workers := workers[worker := workers[worker].(user := user, trace := trace, status := status,
                                                      lanes := lanes, heartbeatAt := now)];
      } else {
        workers := workers[worker := Worker(user, trace, status, lanes, now, 0, 0, 0)];
      }
    }

    method Enqueue(user: string, trace: string, specs: seq<TaskSpec>, now: int) returns (created: seq<TaskRef>)
      requires Valid()
      modifies this
      ensures Valid()
      ensures tasks == EnqueueAll(old(tasks), user, trace, specs, now)
      ensures workers == old(workers)
      ensures created == EnqueuedRows(trace, specs)
    {
      created := [];
      for i := 0 to |specs|
        invariant Valid() && tasks == EnqueueAll(old(tasks), user, trace, specs[..i], now)
        invariant workers == old(workers)
        invariant created == EnqueuedRows(trace, specs[..i])
      {
        PrefixStep(specs, i);
        var spec := specs[i];
        if spec.key == "" {
          continue;
        }
        var r := TaskRef(trace, spec.key);
        if r in tasks {
          tasks := tasks[r := Reenqueued(tasks[r], spec, now)];
        } else {
          tasks := tasks[r := NewTask(user, spec, now)];
        }
        created := created + [r];
      }
      assert specs[..|specs|] == specs;
    }

    /** The dictionary task_key -> status of one trace. */
    method StatusMap(trace: string) returns (status: map<string, Status>)
      ensures Mirrors(status, tasks, trace)
    {
      status := map r | r in tasks && r.trace == trace :: r.key := tasks[r].status;
      forall k
        ensures MirrorsKey(status, tasks, trace, k)
      {
        assert TaskRef(trace, k).key == k;
      }
    }

    method GetReady(user: string, trace: string, limit: int, rows: seq<TaskRef>) returns (ready: seq<TaskRef>)
      requires IsWindow(tasks, user, trace, 5 * ClampLimit(limit), rows)
      ensures ready == ClaimedRows(tasks, {}, limit, rows)
    {
      var status := StatusMap(trace);
      ready := [];
      for i := 0 to |rows|
        invariant |ready| < ClampLimit(limit)
        invariant ready == Eligibles(tasks, {}, rows[..i])
      {
        PrefixStep(rows, i);
        ReadyByMap(tasks, status, rows[i]);
        var blocked := Unmet(status, tasks[rows[i]].deps);
        if blocked {
          continue;
        }
        ready := ready + [rows[i]];
        if |ready| >= ClampLimit(limit) {
          LimitReached(tasks, {}, limit, rows, i + 1);
          return;
        }
      }
      assert rows[..|rows|] == rows;
    }

    /** UPDATE ... WHERE id = ? AND status = 'queued'; when a row was changed its worker is credited. */
    method TryClaim(r: TaskRef, worker: string, now: int) returns (changed: bool)
      requires worker in workers
      modifies this
      ensures changed == StatusIs(old(tasks), r, Queued)
      ensures tasks == if changed then old(tasks)[r := ClaimedTask(old(tasks)[r], worker, now)] else old(tasks)
      ensures workers == if changed then Credited(old(workers), worker, now) else old(workers)
    {
      changed := r in tasks && tasks[r].status == Queued;
      if changed {
        tasks := tasks[r := ClaimedTask(tasks[r], worker, now)];
        workers := workers[worker := workers[worker].(claimed := workers[worker].claimed + 1,
                                                      heartbeatAt := now, status := "running")];
      }
    }

    method ClaimReady(user: string, trace: string, worker: string, lanes: set<string>, limit: int,
                      rows: seq<TaskRef>, now: int) returns (claimed: seq<TaskRef>)
      requires Valid() && IsWindow(tasks, user, trace, 8 * ClampLimit(limit), rows)
      modifies this
      ensures Valid()
      ensures claimed == ClaimedRows(old(tasks), lanes, limit, rows)
      ensures Contents() == Claim(old(Contents()), user, trace, worker, lanes, limit, rows, now)
    {
      Heartbeat(worker, user, trace, lanes, "running", now);
      WindowRows(tasks, user, trace, 8 * ClampLimit(limit), rows);
      claimed := ClaimRows(trace, worker, lanes, limit, rows, now);
    }

    /** One round of the claim loop: lane, dependencies, then the guarded update. */
    method ClaimRow(r: TaskRef, worker: string, lanes: set<string>, status: map<string, Status>, now: int) returns (changed: bool)
      requires worker in workers && StatusIs(tasks, r, Queued) && Mirrors(status, tasks, r.trace)
      modifies this
      ensures changed == Eligible(old(tasks), lanes, r)
      ensures tasks == if changed then old(tasks)[r := ClaimedTask(old(tasks)[r], worker, now)] else old(tasks)
      ensures workers == if changed then Credited(old(workers), worker, now) else old(workers)
    {
      if lanes != {} && tasks[r].lane !in lanes {
        return false;
      }
      ReadyByMap(tasks, status, r);
      var blocked := Unmet(status, tasks[r].deps);
      if blocked {
        return false;
      }
      changed := TryClaim(r, worker, now);
    }

    /** The claim loop over the selected rows. */
    method ClaimRows(trace: string, worker: string, lanes: set<string>, limit: int, rows: seq<TaskRef>, now: int)
      returns (claimed: seq<TaskRef>)
      requires worker in workers && workers[worker].status == "running" && workers[worker].heartbeatAt == now
      requires AllQueued(tasks, trace, rows)
      modifies this
      ensures claimed == ClaimedRows(old(tasks), lanes, limit, rows)
      ensures tasks == ClaimTasks(old(tasks), worker, claimed, now)
      ensures workers == AddClaims(old(workers), worker, |claimed|)
    {
      var most := ClampLimit(limit);
      ghost var tasks0, workers0 := tasks, workers;
      var status := StatusMap(trace);
      claimed := [];
      for i := 0 to |rows|
        invariant |claimed| < most
        invariant claimed == Eligibles(tasks0, lanes, rows[..i])
        invariant tasks == ClaimTasks(tasks0, worker, claimed, now)
        invariant workers == AddClaims(workers0, worker, |claimed|)
        invariant Mirrors(status, tasks, trace)
      {
        PrefixStep(rows, i);
        var r := rows[i];
        RowAtStart(tasks0, worker, lanes, rows, i, now);
        StillMirrors(tasks, status, r, ClaimedTask(tasks[r], worker, now));
        var changed := ClaimRow(r, worker, lanes, status, now);
        if !changed {
          continue;
        }
        AddClaimsStep(workers0, worker, |claimed|, now);
        claimed := claimed + [r];
        status := status[r.key := Running];
        if |claimed| >= most {
          LimitReached(tasks0, lanes, limit, rows, i + 1);
          return;
        }
      }
      assert rows[..|rows|] == rows;
    }

    method MarkMany(trace: string, rawKeys: seq<string>, statusText: string, worker: Option<string>, now: int)
      returns (count: nat)
      requires Valid()
      modifies this
      ensures Valid()
      ensures Contents() == Mark(old(Contents()), trace, rawKeys, NormalizeStatus(statusText), worker, now)
      ensures count == HitCount(old(tasks), trace, KeptKeys(rawKeys))
    {
      var keys := KeptKeys(rawKeys);
      if keys == [] {
        return 0;
      }
      var status := NormalizeStatus(statusText);
      count := 0;
      for i := 0 to |keys|
        invariant tasks == MarkTasks(old(tasks), trace, keys[..i], status, worker, now)
        invariant workers == old(workers)
        invariant count == HitCount(old(tasks), trace, keys[..i])
      {
        PrefixStep(keys, i);
        MarkTasksStep(old(tasks), trace, keys, i, status, worker, now);
        var r := TaskRef(trace, keys[i]);
        if r in tasks {
          tasks := tasks[r := Marked(tasks[r], status, worker, now)];
          count := count + 1;
        }
      }
      assert keys[..|keys|] == keys;
      CreditAcks(worker, status, count, now);
    }

    /** The counter update that follows an acknowledgement. */
    method CreditAcks(worker: Option<string>, status: Status, count: nat, now: int)
      modifies this`workers
      ensures workers == CreditWorker(old(workers), worker, status, count, now)
    {
      if worker.Some? && worker.value != "" && worker.value in workers {
        var w := workers[worker.value];
        if status == Completed {
          workers := workers[worker.value := w.(completed := w.completed + count, heartbeatAt := now, status := "running")];
        } else if status == Failed {
          workers := workers[worker.value := w.(failed := w.failed + count, heartbeatAt := now, status := "running")];
        } else if status == Canceled {
          workers := workers[worker.value := w.(heartbeatAt := now, status := "idle")];
        }
      }
    }

    /** The acknowledgement the sweep issues for a row that is out of attempts. */
    method FailStale(r: TaskRef, now: int)
      requires Valid() && r in tasks
      modifies this
      ensures Valid()
      ensures tasks == old(tasks)[r := Marked(old(tasks)[r], Failed, KnownWorker(old(tasks)[r]), now)]
      ensures workers == CreditWorker(old(workers), KnownWorker(old(tasks)[r]), Failed, 1, now)
    {
      MarkSingle(tasks, r, KnownWorker(tasks[r]), now);
      FailedIsFailed("failed");
      var _ := MarkMany(r.trace, [r.key], "failed", KnownWorker(tasks[r]), now);
    }

    /** UPDATE ... SET status = 'queued' WHERE id = ? AND status = 'running'. */
    method PutBack(r: TaskRef, now: int)
      modifies this`tasks
      ensures tasks == if StatusIs(old(tasks), r, Running) then old(tasks)[r := Requeued(old(tasks)[r], now)] else old(tasks)
    {
      if r in tasks && tasks[r].status == Running {
        tasks := tasks[r := Requeued(tasks[r], now)];
      }
    }

    method RequeueStale(user: string, trace: string, staleAfter: int, maxAttempts: int, rows: seq<TaskRef>, now: int)
      returns (reclaimed: seq<TaskRef>, failed: seq<TaskRef>)
      requires Valid() && IsRunningList(tasks, user, trace, rows)
      modifies this
      ensures Valid()
      ensures Contents() == Sweep(old(Contents()), staleAfter, maxAttempts, rows, now)
      ensures reclaimed == RequeuedRows(old(tasks), rows, staleAfter, maxAttempts, now)
      ensures failed == FailedRows(old(tasks), rows, staleAfter, maxAttempts, now)
    {
      ghost var tasks0, workers0 := tasks, workers;
      RunningRows(tasks, user, trace, rows);
      reclaimed, failed := [], [];
      for i := 0 to |rows|
        invariant tasks == SweepTasks(tasks0, rows[..i], staleAfter, maxAttempts, now)
        invariant reclaimed == RequeuedRows(tasks0, rows[..i], staleAfter, maxAttempts, now)
        invariant failed == FailedRows(tasks0, rows[..i], staleAfter, maxAttempts, now)
        invariant workers == BlameWorkers(workers0, tasks0, failed, now)
      {
        PrefixStep(rows, i);
        var r := rows[i];
        SweepTasksStep(tasks0, rows, i, staleAfter, maxAttempts, now);
        var t := tasks[r];
        if AgeSeconds(now, t.updatedAt) < Max(30, staleAfter) {
          continue;
        }
        if t.attempts >= Max(1, maxAttempts) {
          FailStale(r, now);
          failed := failed + [r];
          continue;
        }
        PutBack(r, now);
        reclaimed := reclaimed + [r];
      }
      assert rows[..|rows|] == rows;
    }
  }

  ghost predicate AllRunning(tasks: TaskTable, trace: string, rows: seq<TaskRef>) {
    Distinct(rows) && forall i :: 0 <= i < |rows| ==> StatusIs(tasks, rows[i], Running) && rows[i].trace == trace
  }

  lemma RunningRows(tasks: TaskTable, user: string, trace: string, rows: seq<TaskRef>)
    requires IsRunningList(tasks, user, trace, rows)
    ensures AllRunning(tasks, trace, rows)
  {
    forall i | 0 <= i < |rows|
      ensures InScope(tasks, user, trace, Running, rows[i])
    {
      assert rows[i] in rows;
    }
  }

  lemma SweepTasksStep(tasks: TaskTable, rows: seq<TaskRef>, i: nat, staleAfter: int, maxAttempts: int, now: int)
    requires i < |rows| && AllRunning(tasks, rows[i].trace, rows)
    ensures rows[i] in SweepTasks(tasks, rows[..i], staleAfter, maxAttempts, now)
    ensures SweepTasks(tasks, rows[..i], staleAfter, maxAttempts, now)[rows[i]] == tasks[rows[i]]
    ensures SweepTasks(tasks, rows[..i + 1], staleAfter, maxAttempts, now)
         == SweepTasks(tasks, rows[..i], staleAfter, maxAttempts, now)
              [rows[i] := SweptTask(tasks[rows[i]], staleAfter, maxAttempts, now)]
  {
    assert rows[..i + 1] == rows[..i] + [rows[i]];
  }

  lemma MarkTasksStep(tasks: TaskTable, trace: string, keys: seq<string>, i: nat, status: Status,
                      worker: Option<string>, now: int)
    requires i < |keys|
    ensures MarkTasks(tasks, trace, keys[..i + 1], status, worker, now)
         == var before := MarkTasks(tasks, trace, keys[..i], status, worker, now);
            var r := TaskRef(trace, keys[i]);
            if r in tasks then before[r := Marked(before[r], status, worker, now)] else before
  {
    assert keys[..i + 1] == keys[..i] + [keys[i]];
    forall r | r in tasks
      ensures Hit(trace, keys[..i + 1], r) <==> Hit(trace, keys[..i], r) || r == TaskRef(trace, keys[i])
    {
    }
  }

  lemma SingleKey(tasks: TaskTable, trace: string, keys: seq<string>, key: string)
    requires keys == [key] && key != ""
    ensures KeptKeys(keys) == keys
    ensures HitCount(tasks, trace, keys) == if TaskRef(trace, key) in tasks then 1 else 0
  {
    assert Init(keys) == [] && Last(keys) == key;
    assert KeptKeys([]) == [] && HitCount(tasks, trace, []) == 0;
  }

  lemma FailedIsFailed(text: string)
    requires text == "failed"
    ensures NormalizeStatus(text) == Failed
  {
    Slug.PlainText(text);
  }

  lemma MarkExactly(tasks: TaskTable, r: TaskRef, keys: seq<string>, worker: Option<string>, now: int)
    requires r in tasks && keys == [r.key]
    ensures MarkTasks(tasks, r.trace, keys, Failed, worker, now) == tasks[r := Marked(tasks[r], Failed, worker, now)]
  {
    assert forall q :: Hit(r.trace, keys, q) <==> q == r;
  }

  /** A one-key acknowledgement touches that row only. */
  lemma MarkSingle(tasks: TaskTable, r: TaskRef, worker: Option<string>, now: int)
    requires r in tasks && r.key != ""
    ensures KeptKeys([r.key]) == [r.key]
    ensures MarkTasks(tasks, r.trace, [r.key], Failed, worker, now) == tasks[r := Marked(tasks[r], Failed, worker, now)]
    ensures HitCount(tasks, r.trace, [r.key]) == 1
  {
    SingleKey(tasks, r.trace, [r.key], r.key);
    MarkExactly(tasks, r, [r.key], worker, now);
  }

  ghost predicate AllQueued(tasks: TaskTable, trace: string, rows: seq<TaskRef>) {
    Distinct(rows) && forall i :: 0 <= i < |rows| ==> StatusIs(tasks, rows[i], Queued) && rows[i].trace == trace
  }

  lemma WindowRows(tasks: TaskTable, user: string, trace: string, n: nat, rows: seq<TaskRef>)
    requires IsWindow(tasks, user, trace, n, rows)
    ensures AllQueued(tasks, trace, rows)
  {
  }

  lemma {:induction false} EligiblesAreRows(tasks: TaskTable, lanes: set<string>, rows: seq<TaskRef>)
    ensures forall r :: r in Eligibles(tasks, lanes, rows) <==> r in rows && Eligible(tasks, lanes, r)
  {
    if rows != [] {
      EligiblesAreRows(tasks, lanes, Init(rows));
      assert rows == Init(rows) + [Last(rows)];
    }
  }

  /** The row the loop looks at has not been claimed by an earlier round. */
  lemma FreshRow(tasks: TaskTable, lanes: set<string>, rows: seq<TaskRef>, i: nat)
    requires i < |rows| && AllQueued(tasks, rows[i].trace, rows)
    ensures rows[i] in tasks && rows[i] !in Eligibles(tasks, lanes, rows[..i])
  {
    EligiblesAreRows(tasks, lanes, rows[..i]);
  }

  lemma ClaimTasksStep(tasks: TaskTable, worker: string, claimed: seq<TaskRef>, r: TaskRef, now: int)
    requires r in tasks && r !in claimed
    ensures ClaimTasks(tasks, worker, claimed, now)[r] == tasks[r]
    ensures ClaimTasks(tasks, worker, claimed + [r], now)
         == ClaimTasks(tasks, worker, claimed, now)[r := ClaimedTask(tasks[r], worker, now)]
  {
  }

  /** any(status_map.get(dep) != "completed" for dep in deps) */
  predicate Unmet(status: map<string, Status>, deps: seq<string>) {
    exists d :: d in deps && (d !in status || status[d] != Completed)
  }

  /** The dictionary holds the status of every task of the trace, and nothing else. */
  ghost predicate Mirrors(status: map<string, Status>, tasks: TaskTable, trace: string) {
    forall k {:trigger MirrorsKey(status, tasks, trace, k)} :: MirrorsKey(status, tasks, trace, k)
  }

  ghost predicate MirrorsKey(status: map<string, Status>, tasks: TaskTable, trace: string, k: string) {
    (k in status <==> TaskRef(trace, k) in tasks) && (k in status ==> status[k] == tasks[TaskRef(trace, k)].status)
  }

  lemma StillMirrors(tasks: TaskTable, status: map<string, Status>, r: TaskRef, t: Task)
    requires Mirrors(status, tasks, r.trace) && r in tasks
    ensures Mirrors(status[r.key := t.status], tasks[r := t], r.trace)
  {
    var status', tasks' := status[r.key := t.status], tasks[r := t];
    forall k
      ensures MirrorsKey(status', tasks', r.trace, k)
    {
      assert MirrorsKey(status, tasks, r.trace, k);
    }
  }

  /** Claims so far have not changed which rows are ready. */
  lemma ClaimsKeepReady(tasks: TaskTable, worker: string, claimed: seq<TaskRef>, r: TaskRef, now: int)
    requires r in tasks && forall q :: q in claimed ==> StatusIs(tasks, q, Queued)
    ensures Ready(ClaimTasks(tasks, worker, claimed, now), r) <==> Ready(tasks, r)
    ensures ClaimTasks(tasks, worker, claimed, now)[r].deps == tasks[r].deps
  {
    forall d | d in tasks[r].deps
      ensures Done(ClaimTasks(tasks, worker, claimed, now), TaskRef(r.trace, d)) <==> Done(tasks, TaskRef(r.trace, d))
    {
      var q := TaskRef(r.trace, d);
      assert q in claimed ==> StatusIs(tasks, q, Queued);
    }
  }

  /** In the middle of the loop a row is as it was at the start, and exactly as eligible as it was then. */
  lemma RowAtStart(tasks: TaskTable, worker: string, lanes: set<string>, rows: seq<TaskRef>, i: nat, now: int)
    requires i < |rows| && AllQueued(tasks, rows[i].trace, rows)
    ensures var r, claimed := rows[i], Eligibles(tasks, lanes, rows[..i]);
      && StatusIs(tasks, r, Queued) && ClaimTasks(tasks, worker, claimed, now)[r] == tasks[r]
      && ClaimTasks(tasks, worker, claimed + [r], now) == ClaimTasks(tasks, worker, claimed, now)[r := ClaimedTask(tasks[r], worker, now)]
      && (Eligible(ClaimTasks(tasks, worker, claimed, now), lanes, r) <==> Eligible(tasks, lanes, r))
  {
    var r, claimed := rows[i], Eligibles(tasks, lanes, rows[..i]);
    FreshRow(tasks, lanes, rows, i);
    ClaimTasksStep(tasks, worker, claimed, r, now);
    EligiblesQueued(tasks, lanes, rows, i);
    ClaimsKeepReady(tasks, worker, claimed, r, now);
  }

  lemma EligiblesQueued(tasks: TaskTable, lanes: set<string>, rows: seq<TaskRef>, i: nat)
    requires i < |rows| && AllQueued(tasks, rows[i].trace, rows)
    ensures forall q :: q in Eligibles(tasks, lanes, rows[..i]) ==> StatusIs(tasks, q, Queued)
  {
    EligiblesAreRows(tasks, lanes, rows[..i]);
  }

  function Credited(workers: map<string, Worker>, worker: string, now: int): map<string, Worker>
    requires worker in workers
  {
    workers[worker := workers[worker].(claimed := workers[worker].claimed + 1, heartbeatAt := now, status := "running")]
  }

  lemma AddClaimsStep(workers: map<string, Worker>, worker: string, n: nat, now: int)
    requires worker in workers && workers[worker].status == "running" && workers[worker].heartbeatAt == now
    ensures AddClaims(workers, worker, n + 1) == Credited(AddClaims(workers, worker, n), worker, now)
  {
  }

  /** Looking the dependencies up in the dictionary is testing readiness on the table. */
  lemma ReadyByMap(tasks: TaskTable, status: map<string, Status>, r: TaskRef)
    requires r in tasks && Mirrors(status, tasks, r.trace)
    ensures Unmet(status, tasks[r].deps) <==> !Ready(tasks, r)
  {
    forall d | d in tasks[r].deps
      ensures Done(tasks, TaskRef(r.trace, d)) <==> d in status && status[d] == Completed
    {
      assert MirrorsKey(status, tasks, r.trace, d);
    }
  }

  /** Once the limit is reached the rest of the window no longer matters. */
  lemma {:induction false} EligiblesPrefix(tasks: TaskTable, lanes: set<string>, rows: seq<TaskRef>, i: nat)
    requires i <= |rows|
    ensures Eligibles(tasks, lanes, rows[..i]) <= Eligibles(tasks, lanes, rows)
  {
    if i < |rows| {
      EligiblesPrefix(tasks, lanes, Init(rows), i);
      assert Init(rows)[..i] == rows[..i];
    } else {
      assert rows[..i] == rows;
    }
  }

  lemma LimitReached(tasks: TaskTable, lanes: set<string>, limit: int, rows: seq<TaskRef>, i: nat)
    requires i <= |rows| && |Eligibles(tasks, lanes, rows[..i])| == ClampLimit(limit)
    ensures ClaimedRows(tasks, lanes, limit, rows) == Eligibles(tasks, lanes, rows[..i])
  {
    EligiblesPrefix(tasks, lanes, rows, i);
  }
}
