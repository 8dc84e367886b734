/** What a claim hands out, said without the loop, and when it hands out nothing. */
module InboxClaims {
  import opened Common
  import opened InboxModel
  import opened Inbox

  /** The lane is one of those asked for, if any were named, and each dependency is in the table and completed. */
  predicate MayGo(tasks: TaskTable, lanes: set<string>, r: TaskRef) {
    && r in tasks
    && (lanes != {} ==> tasks[r].lane in lanes)
    && forall d :: d in tasks[r].deps ==> TaskRef(r.trace, d) in tasks && tasks[TaskRef(r.trace, d)].status == Completed
  }

  lemma EligibleMeans(tasks: TaskTable, lanes: set<string>)
    ensures forall r :: Eligible(tasks, lanes, r) <==> MayGo(tasks, lanes, r)
  {
  }

  /** The i-th row of a window is handed out unless a full batch precedes it. */
  lemma {:induction false} ClaimIsFirstEligible(tasks: TaskTable, lanes: set<string>, limit: int, rows: seq<TaskRef>)
    requires Distinct(rows)
    ensures var claimed := ClaimedRows(tasks, lanes, limit, rows);
      && |claimed| <= ClampLimit(limit)
      && Distinct(claimed)
      && (forall r :: r in claimed ==> r in rows && MayGo(tasks, lanes, r))
      && (forall i :: 0 <= i < |rows| && MayGo(tasks, lanes, rows[i]) && rows[i] !in claimed ==>
            |claimed| == ClampLimit(limit) && forall r :: r in claimed ==> r in rows[..i])
  {
    EligibleMeans(tasks, lanes);
    EligiblesAreRows(tasks, lanes, rows);
    EligiblesDistinct(tasks, lanes, rows);
    var all := Eligibles(tasks, lanes, rows);
    var claimed := ClaimedRows(tasks, lanes, limit, rows);
    assert claimed <= all;
    forall i | 0 <= i < |rows| && Eligible(tasks, lanes, rows[i]) && rows[i] !in claimed
      ensures |claimed| == ClampLimit(limit) && forall r :: r in claimed ==> r in rows[..i]
    {
      assert rows[i] in all;
      EligiblesPrefix(tasks, lanes, rows, i);
      EligiblesPrefix(tasks, lanes, rows, i + 1);
      PrefixStep(rows, i);
      var before := Eligibles(tasks, lanes, rows[..i]);
      assert Eligibles(tasks, lanes, rows[..i + 1]) == before + [rows[i]];
      assert all[|before|] == rows[i];
      assert |claimed| <= |before|;
      assert claimed == before[..|claimed|];
      EligiblesAreRows(tasks, lanes, rows[..i]);
    }
  }

  lemma {:induction false} EligiblesDistinct(tasks: TaskTable, lanes: set<string>, rows: seq<TaskRef>)
    requires Distinct(rows)
    ensures Distinct(Eligibles(tasks, lanes, rows))
  {
    if rows != [] {
      EligiblesDistinct(tasks, lanes, Init(rows));
      EligiblesAreRows(tasks, lanes, Init(rows));
    }
  }

  /**
   Priority order is global: a queued, ready, in-lane task that was passed over, whether it was in the
   window or not, is never strictly better than a task that was handed out.
   */
  lemma ClaimRespectsPriority(tasks: TaskTable, user: string, trace: string, lanes: set<string>, limit: int,
                              rows: seq<TaskRef>, c: TaskRef, u: TaskRef)
    requires IsWindow(tasks, user, trace, 8 * ClampLimit(limit), rows)
    requires c in ClaimedRows(tasks, lanes, limit, rows)
    requires InScope(tasks, user, trace, Queued, u) && Eligible(tasks, lanes, u)
    requires u !in ClaimedRows(tasks, lanes, limit, rows)
    ensures c in tasks
    ensures tasks[c].priority < tasks[u].priority || (tasks[c].priority == tasks[u].priority && tasks[c].createdAt <= tasks[u].createdAt)
  {
    EligibleMeans(tasks, lanes);
    ClaimIsFirstEligible(tasks, lanes, limit, rows);
    if u in rows {
      var i :| 0 <= i < |rows| && rows[i] == u;
      assert c in rows[..i];
      var j :| 0 <= j < i && rows[j] == c;
    }
  }

  /** Nothing is handed out exactly when the window holds no eligible row. */
  lemma EmptyClaim(tasks: TaskTable, lanes: set<string>, limit: int, rows: seq<TaskRef>)
    ensures ClaimedRows(tasks, lanes, limit, rows) == [] <==> forall r :: r in rows ==> !Eligible(tasks, lanes, r)
  {
    EligiblesAreRows(tasks, lanes, rows);
    var all := Eligibles(tasks, lanes, rows);
    if all != [] {
      assert all[0] in all;
    }
  }

  /** The queued tasks of one user and trace. */
  ghost function Backlog(tasks: TaskTable, user: string, trace: string): set<TaskRef> {
    set r | r in tasks && InScope(tasks, user, trace, Queued, r)
  }

  lemma {:induction false} RowSet(rows: seq<TaskRef>)
    requires Distinct(rows)
    ensures |set r | r in rows| == |rows|
  {
    if rows != [] {
      RowSet(Init(rows));
      assert rows == Init(rows) + [Last(rows)];
      assert (set r | r in rows) == (set r | r in Init(rows)) + {Last(rows)};
    }
  }

  /** While the backlog fits into the window, an empty answer means that no in-lane task is ready. */
  lemma EmptyClaimIsHonest(tasks: TaskTable, user: string, trace: string, lanes: set<string>, limit: int, rows: seq<TaskRef>)
    requires IsWindow(tasks, user, trace, 8 * ClampLimit(limit), rows)
    requires |Backlog(tasks, user, trace)| <= 8 * ClampLimit(limit)
    ensures ClaimedRows(tasks, lanes, limit, rows) == [] <==>
            forall r :: r in Backlog(tasks, user, trace) ==> !Eligible(tasks, lanes, r)
  {
    EmptyClaim(tasks, lanes, limit, rows);
    RowSet(rows);
    var shown := set r | r in rows;
    var backlog := Backlog(tasks, user, trace);
    assert shown <= backlog by {
      forall r | r in shown
        ensures r in backlog
      {
        var i :| 0 <= i < |rows| && rows[i] == r;
      }
    }
    if exists u :: u in backlog && u !in rows {
      var u :| u in backlog && u !in rows;
      assert |rows| == 8 * ClampLimit(limit);
      assert shown + {u} <= backlog;
      SubsetSize(shown + {u}, backlog);
      assert false;
    }
  }

  lemma {:induction false} SubsetSize<T>(a: set<T>, b: set<T>)
    requires a <= b
    ensures |a| <= |b|
  {
    if a != {} {
      var x :| x in a;
      SubsetSize(a - {x}, b - {x});
    }
  }

  /** The database can always answer the SELECT, so no operation is blocked by its row argument. */
  lemma WindowExists(tasks: TaskTable, user: string, trace: string, n: nat) returns (rows: seq<TaskRef>)
    ensures IsWindow(tasks, user, trace, n, rows)
  {
    rows := BestFirst(tasks, Backlog(tasks, user, trace), {}, n);
  }

  /** The order of the SELECT with its ties broken in favour of some rows. */
  predicate Leads(tasks: TaskTable, favoured: set<TaskRef>, a: TaskRef, b: TaskRef)
    requires a in tasks && b in tasks
  {
    NotAfter(tasks[a], tasks[b]) && (NotAfter(tasks[b], tasks[a]) ==> a in favoured || b !in favoured)
  }

  lemma {:induction false} BestFirst(tasks: TaskTable, pool: set<TaskRef>, favoured: set<TaskRef>, n: nat) returns (rows: seq<TaskRef>)
    requires forall r :: r in pool ==> r in tasks
    ensures Distinct(rows) && |rows| <= n
    ensures forall i :: 0 <= i < |rows| ==> rows[i] in pool
    ensures forall i, j :: 0 <= i < j < |rows| ==> Leads(tasks, favoured, rows[i], rows[j])
    ensures forall u :: u in pool && u !in rows ==> |rows| == n && forall r :: r in rows ==> r in pool && Leads(tasks, favoured, r, u)
    decreases n
  {
    if n == 0 || pool == {} {
      rows := [];
    } else {
      var best := Best(tasks, pool, favoured);
      var rest := BestFirst(tasks, pool - {best}, favoured, n - 1);
      rows := [best] + rest;
      assert forall r :: r in rows <==> r == best || r in rest;
    }
  }

  lemma {:induction false} Best(tasks: TaskTable, pool: set<TaskRef>, favoured: set<TaskRef>) returns (best: TaskRef)
    requires pool != {} && forall r :: r in pool ==> r in tasks
    ensures best in pool && forall u :: u in pool ==> Leads(tasks, favoured, best, u)
    decreases pool
  {
    best :| best in pool;
    if pool != {best} {
      var first := best;
      var other := Best(tasks, pool - {best}, favoured);
      if !Leads(tasks, favoured, best, other) {
        best := other;
      }
      forall u | u in pool
        ensures Leads(tasks, favoured, best, u)
      {
        assert u == first || Leads(tasks, favoured, other, u);
      }
    }
  }

  /** Likewise the list of running rows. */
  lemma RunningListExists(tasks: TaskTable, user: string, trace: string) returns (rows: seq<TaskRef>)
    ensures IsRunningList(tasks, user, trace, rows)
  {
    rows := ListOf(set r | r in tasks && InScope(tasks, user, trace, Running, r));
  }

  lemma {:induction false} ListOf(pool: set<TaskRef>) returns (rows: seq<TaskRef>)
    ensures Distinct(rows) && forall r :: r in rows <==> r in pool
    decreases pool
  {
    if pool == {} {
      rows := [];
    } else {
      var r :| r in pool;
      var rest := ListOf(pool - {r});
      rows := [r] + rest;
    }
  }
}
