/** When a claim comes back empty although a task is ready: exactly, and in a run that never recovers. */
module InboxStarvation {
  import opened Common
  import opened InboxModel
  import opened InboxClaims
  import opened InboxRuns

  /** The queued tasks that every answer of the SELECT puts before u. */
  ghost function Better(tasks: TaskTable, user: string, trace: string, u: TaskRef): set<TaskRef>
    requires u in tasks
  {
    set q | q in tasks && InScope(tasks, user, trace, Queued, q) && !NotAfter(tasks[u], tasks[q])
  }

  /** The queued tasks that some answer puts before u. */
  ghost function NotWorse(tasks: TaskTable, user: string, trace: string, u: TaskRef): set<TaskRef>
    requires u in tasks
  {
    set q | q in tasks && InScope(tasks, user, trace, Queued, q) && q != u && NotAfter(tasks[q], tasks[u])
  }

  /** Those of them that are not eligible themselves. */
  ghost function BlockedAhead(tasks: TaskTable, user: string, trace: string, lanes: set<string>, u: TaskRef): set<TaskRef>
    requires u in tasks
  {
    set q | q in tasks && InScope(tasks, user, trace, Queued, q) && !Eligible(tasks, lanes, q) && NotAfter(tasks[q], tasks[u])
  }

  function RowsOf(rows: seq<TaskRef>): set<TaskRef> {
    set r | r in rows
  }

  /** Whatever the answer of the SELECT: fewer than n tasks not worse, and u is in it; n better ones, and it is not. */
  lemma WindowPosition(tasks: TaskTable, user: string, trace: string, n: nat, rows: seq<TaskRef>, u: TaskRef)
    requires IsWindow(tasks, user, trace, n, rows) && u in Backlog(tasks, user, trace)
    ensures |NotWorse(tasks, user, trace, u)| < n ==> u in rows
    ensures |Better(tasks, user, trace, u)| >= n ==> u !in rows
  {
    RowSet(rows);
    var shown, better := RowsOf(rows), Better(tasks, user, trace, u);
    if u in rows {
      assert better + {u} <= shown by {
        forall q | q in better
          ensures q in rows
        {
        }
      }
      SubsetSize(better + {u}, shown);
    } else {
      assert shown <= NotWorse(tasks, user, trace, u) by {
        forall r | r in rows
          ensures InScope(tasks, user, trace, Queued, r)
        {
          var i :| 0 <= i < |rows| && rows[i] == r;
        }
      }
      SubsetSize(shown, NotWorse(tasks, user, trace, u));
    }
  }

  /** Fewer than n better ones leave the database an answer with u. */
  lemma WindowWith(tasks: TaskTable, user: string, trace: string, n: nat, u: TaskRef) returns (rows: seq<TaskRef>)
    requires u in Backlog(tasks, user, trace) && |Better(tasks, user, trace, u)| < n
    ensures IsWindow(tasks, user, trace, n, rows) && u in rows
  {
    rows := BestFirst(tasks, Backlog(tasks, user, trace), {u}, n);
    if u !in rows {
      RowSet(rows);
      assert RowsOf(rows) <= Better(tasks, user, trace, u);
      SubsetSize(RowsOf(rows), Better(tasks, user, trace, u));
    }
  }

  ghost predicate Claimable(tasks: TaskTable, user: string, trace: string, lanes: set<string>, u: TaskRef) {
    u in Backlog(tasks, user, trace) && Eligible(tasks, lanes, u)
  }

  ghost predicate AlwaysEmpty(tasks: TaskTable, user: string, trace: string, lanes: set<string>, limit: int) {
    forall rows :: IsWindow(tasks, user, trace, 8 * ClampLimit(limit), rows) ==> ClaimedRows(tasks, lanes, limit, rows) == []
  }

  ghost predicate CanBeEmpty(tasks: TaskTable, user: string, trace: string, lanes: set<string>, limit: int) {
    exists rows :: IsWindow(tasks, user, trace, 8 * ClampLimit(limit), rows) && ClaimedRows(tasks, lanes, limit, rows) == []
  }

  /** A claim is empty whatever the SELECT answers exactly when every eligible task has a full window of better ones. */
  lemma EmptyForEveryAnswer(tasks: TaskTable, user: string, trace: string, lanes: set<string>, limit: int)
    ensures AlwaysEmpty(tasks, user, trace, lanes, limit) <==>
            forall u :: Claimable(tasks, user, trace, lanes, u) ==> |Better(tasks, user, trace, u)| >= 8 * ClampLimit(limit)
  {
    var n := 8 * ClampLimit(limit);
    forall u | Claimable(tasks, user, trace, lanes, u) && |Better(tasks, user, trace, u)| < n
      ensures !AlwaysEmpty(tasks, user, trace, lanes, limit)
    {
      var rows := WindowWith(tasks, user, trace, n, u);
      EmptyClaim(tasks, lanes, limit, rows);
    }
    if forall u :: Claimable(tasks, user, trace, lanes, u) ==> |Better(tasks, user, trace, u)| >= n {
      forall rows | IsWindow(tasks, user, trace, n, rows)
        ensures ClaimedRows(tasks, lanes, limit, rows) == []
      {
        HiddenRows(tasks, user, trace, lanes, limit, rows);
      }
    }
  }

  lemma HiddenRows(tasks: TaskTable, user: string, trace: string, lanes: set<string>, limit: int, rows: seq<TaskRef>)
    requires IsWindow(tasks, user, trace, 8 * ClampLimit(limit), rows)
    requires forall u :: Claimable(tasks, user, trace, lanes, u) ==> |Better(tasks, user, trace, u)| >= 8 * ClampLimit(limit)
    ensures ClaimedRows(tasks, lanes, limit, rows) == []
  {
    forall i | 0 <= i < |rows|
      ensures !Eligible(tasks, lanes, rows[i])
    {
      if Eligible(tasks, lanes, rows[i]) {
        assert Claimable(tasks, user, trace, lanes, rows[i]);
        WindowPosition(tasks, user, trace, 8 * ClampLimit(limit), rows, rows[i]);
      }
    }
    EmptyClaim(tasks, lanes, limit, rows);
  }

  /** It can come back empty exactly when every eligible task has a full window of blocked ones that are not worse. */
  lemma EmptyForSomeAnswer(tasks: TaskTable, user: string, trace: string, lanes: set<string>, limit: int)
    ensures CanBeEmpty(tasks, user, trace, lanes, limit) <==>
            forall u :: Claimable(tasks, user, trace, lanes, u) ==> |BlockedAhead(tasks, user, trace, lanes, u)| >= 8 * ClampLimit(limit)
  {
    var n := 8 * ClampLimit(limit);
    if CanBeEmpty(tasks, user, trace, lanes, limit) {
      var rows :| IsWindow(tasks, user, trace, n, rows) && ClaimedRows(tasks, lanes, limit, rows) == [];
      forall u | Claimable(tasks, user, trace, lanes, u)
        ensures |BlockedAhead(tasks, user, trace, lanes, u)| >= n
      {
        BlockedWindow(tasks, user, trace, lanes, limit, rows, u);
      }
    }
    if forall u :: Claimable(tasks, user, trace, lanes, u) ==> |BlockedAhead(tasks, user, trace, lanes, u)| >= n {
      var rows := WorstWindow(tasks, user, trace, lanes, limit);
    }
  }

  lemma BlockedWindow(tasks: TaskTable, user: string, trace: string, lanes: set<string>, limit: int, rows: seq<TaskRef>, u: TaskRef)
    requires IsWindow(tasks, user, trace, 8 * ClampLimit(limit), rows) && ClaimedRows(tasks, lanes, limit, rows) == []
    requires Claimable(tasks, user, trace, lanes, u)
    ensures |BlockedAhead(tasks, user, trace, lanes, u)| >= 8 * ClampLimit(limit)
  {
    EmptyClaim(tasks, lanes, limit, rows);
    assert u !in rows;
    RowSet(rows);
    forall i | 0 <= i < |rows|
      ensures rows[i] in BlockedAhead(tasks, user, trace, lanes, u)
    {
      assert rows[i] in rows;
    }
    SubsetSize(RowsOf(rows), BlockedAhead(tasks, user, trace, lanes, u));
  }

  /** The answer that puts blocked rows first among equals. */
  lemma WorstWindow(tasks: TaskTable, user: string, trace: string, lanes: set<string>, limit: int) returns (rows: seq<TaskRef>)
    requires forall u :: Claimable(tasks, user, trace, lanes, u) ==> |BlockedAhead(tasks, user, trace, lanes, u)| >= 8 * ClampLimit(limit)
    ensures IsWindow(tasks, user, trace, 8 * ClampLimit(limit), rows) && ClaimedRows(tasks, lanes, limit, rows) == []
  {
    var backlog := Backlog(tasks, user, trace);
    var blocked := set q | q in backlog && !Eligible(tasks, lanes, q);
    rows := BestFirst(tasks, backlog, blocked, 8 * ClampLimit(limit));
    forall i | 0 <= i < |rows|
      ensures !Eligible(tasks, lanes, rows[i])
    {
      if Eligible(tasks, lanes, rows[i]) {
        var u := rows[i];
        assert Claimable(tasks, user, trace, lanes, u);
        var ahead := BlockedAhead(tasks, user, trace, lanes, u);
        forall q | q in ahead
          ensures q in rows
        {
          assert u in rows && q in blocked && u !in blocked;
        }
        RowSet(rows);
        SubsetSize(ahead + {u}, RowsOf(rows));
      }
    }
    EmptyClaim(tasks, lanes, limit, rows);
  }

  // ----- a run that starves -----

  /** Tasks that wait for a key nobody enqueues, and a free task of lower priority. */
  function Blockers(n: nat): seq<TaskSpec> {
    if n == 0 then [] else Blockers(n - 1) + [Blocker(n)]
  }

  function Name(n: nat): (key: string)
    ensures |key| == n && (n > 0 ==> key[0] == 'b')
  {
    seq(n, _ => 'b')
  }

  const FREE := TaskSpec("f", "general", Some(2), [])

  function Jam(user: string, trace: string, limit: int, now: int): Op {
    EnqueueOp(user, trace, Blockers(8 * ClampLimit(limit)) + [FREE], now)
  }

  function BlockerRefs(trace: string, n: nat): (refs: set<TaskRef>)
    ensures forall r :: r in refs ==> r.trace == trace && 1 <= |r.key| <= n && r.key[0] == 'b'
    ensures |refs| == n
  {
    if n == 0 then {} else BlockerRefs(trace, n - 1) + {TaskRef(trace, Name(n))}
  }

  function Waiting(user: string, priority: int, deps: seq<string>, now: int): Task {
    Task(user, "general", Queued, priority, deps, None, 0, None, None, now, now)
  }

  function BlockerRows(user: string, trace: string, n: nat, now: int): (rows: TaskTable)
    ensures rows.Keys == BlockerRefs(trace, n)
    ensures forall r :: r in rows ==> rows[r] == Waiting(user, 1, ["m"], now)
  {
    if n == 0 then map[] else BlockerRows(user, trace, n - 1, now)[TaskRef(trace, Name(n)) := Waiting(user, 1, ["m"], now)]
  }

  lemma EnqueueFresh(tasks: TaskTable, user: string, trace: string, specs: seq<TaskSpec>, spec: TaskSpec, now: int)
    requires spec.key != "" && TaskRef(trace, spec.key) !in EnqueueAll(tasks, user, trace, specs, now)
    ensures EnqueueAll(tasks, user, trace, specs + [spec], now)
         == EnqueueAll(tasks, user, trace, specs, now)[TaskRef(trace, spec.key) := NewTask(user, spec, now)]
  {
    Snoc(specs, [spec]);
    assert Init([spec]) == [] && specs + [] == specs;
  }

  function Blocker(n: nat): TaskSpec {
    TaskSpec(Name(n), "general", Some(1), ["m"])
  }

  lemma {:induction false} BlockersTable(user: string, trace: string, n: nat, now: int)
    ensures EnqueueAll(map[], user, trace, Blockers(n), now) == BlockerRows(user, trace, n, now)
  {
    if n > 0 {
      BlockersTable(user, trace, n - 1, now);
      var key := Name(n);
      assert TaskRef(trace, key) !in BlockerRefs(trace, n - 1);
      EnqueueFresh(map[], user, trace, Blockers(n - 1), Blocker(n), now);
    }
  }

  function JamRows(user: string, trace: string, n: nat, now: int): TaskTable {
    BlockerRows(user, trace, n, now)[TaskRef(trace, "f") := Waiting(user, 2, [], now)]
  }

  lemma JamTable(user: string, trace: string, limit: int, now: int)
    ensures Exec([Jam(user, trace, limit, now)]).tasks == JamRows(user, trace, 8 * ClampLimit(limit), now)
  {
    var n := 8 * ClampLimit(limit);
    BlockersTable(user, trace, n, now);
    assert TaskRef(trace, "f") !in BlockerRefs(trace, n);
    EnqueueFresh(map[], user, trace, Blockers(n), FREE, now);
    assert Init([Jam(user, trace, limit, now)]) == [];
  }

  /** In that table the free task is claimable, no lane has another one, and a whole window of blocked ones is better. */
  ghost predicate Jammed(tasks: TaskTable, user: string, trace: string, n: nat) {
    var free := TaskRef(trace, "f");
    && Claimable(tasks, user, trace, {}, free)
    && |Better(tasks, user, trace, free)| >= n
    && (forall r :: r in tasks && r != free ==> !Ready(tasks, r))
    && (forall r :: r in tasks ==> r.trace == trace && tasks[r].user == user && tasks[r].status == Queued)
  }

  lemma BlockersAreBetter(user: string, trace: string, n: nat, now: int)
    ensures var tasks := JamRows(user, trace, n, now); |Better(tasks, user, trace, TaskRef(trace, "f"))| >= n
  {
    var tasks, free, refs := JamRows(user, trace, n, now), TaskRef(trace, "f"), BlockerRefs(trace, n);
    assert free !in refs;
    var better := Better(tasks, user, trace, free);
    assert refs <= better;
    SubsetSize(refs, better);
  }

  lemma BlockersAreBlocked(user: string, trace: string, n: nat, now: int, r: TaskRef)
    requires r in BlockerRefs(trace, n)
    ensures r in JamRows(user, trace, n, now) && !Ready(JamRows(user, trace, n, now), r)
  {
    var tasks, missing := JamRows(user, trace, n, now), TaskRef(trace, "m");
    assert missing !in BlockerRefs(trace, n) && missing.key[0] != "f"[0];
    assert !Done(tasks, missing);
    assert r != TaskRef(trace, "f");
    assert "m" in tasks[r].deps && TaskRef(r.trace, "m") == missing;
  }

  lemma JamRowsJam(user: string, trace: string, n: nat, now: int)
    ensures Jammed(JamRows(user, trace, n, now), user, trace, n)
  {
    var tasks, free := JamRows(user, trace, n, now), TaskRef(trace, "f");
    BlockersAreBetter(user, trace, n, now);
    forall r | r in tasks && r != free
      ensures !Ready(tasks, r)
    {
      BlockersAreBlocked(user, trace, n, now, r);
    }
    assert Ready(tasks, free);
  }

  lemma JamJams(user: string, trace: string, limit: int, now: int)
    ensures Jammed(Exec([Jam(user, trace, limit, now)]).tasks, user, trace, 8 * ClampLimit(limit))
  {
    JamTable(user, trace, limit, now);
    JamRowsJam(user, trace, 8 * ClampLimit(limit), now);
  }

  /** Everything but a new enqueue or an acknowledgement; claims ask for at most so many tasks. */
  predicate Routine(op: Op, limit: int) {
    match op
    case EnqueueOp(_, _, _, _) => false
    case MarkOp(_, _, _, _, _) => false
    case ClaimOp(_, _, _, _, most, _, _) => ClampLimit(most) <= ClampLimit(limit)
    case _ => true
  }

  lemma JammedClaims(tasks: TaskTable, user: string, trace: string, n: nat, op: Op)
    requires Jammed(tasks, user, trace, n) && op.ClaimOp? && 8 * ClampLimit(op.limit) <= n
    requires IsWindow(tasks, op.user, op.trace, 8 * ClampLimit(op.limit), op.rows)
    ensures ClaimedRows(tasks, op.lanes, op.limit, op.rows) == []
  {
    forall u | Claimable(tasks, op.user, op.trace, op.lanes, u)
      ensures |Better(tasks, op.user, op.trace, u)| >= 8 * ClampLimit(op.limit)
    {
      assert u == TaskRef(trace, "f") && op.user == user && op.trace == trace;
    }
    HiddenRows(tasks, op.user, op.trace, op.lanes, op.limit, op.rows);
  }

  lemma RoutineKeepsJam(t: Tables, user: string, trace: string, limit: int, op: Op)
    requires Jammed(t.tasks, user, trace, 8 * ClampLimit(limit)) && Routine(op, limit) && Possible(t, op)
    ensures Step(t, op).tasks == t.tasks && Handed(t, op) == []
  {
    if op.ClaimOp? {
      JammedClaims(t.tasks, user, trace, 8 * ClampLimit(limit), op);
    }
  }

  /**
   For every limit one enqueue leads to a state with a ready task that no later claim up to that limit ever
   gets, by any worker and whatever the SELECTs answer, until someone enqueues or acknowledges again.
   */
  lemma {:induction false} StarvesForGood(user: string, trace: string, limit: int, now: int, more: seq<Op>)
    requires Run([Jam(user, trace, limit, now)] + more)
    requires forall i :: 0 <= i < |more| ==> Routine(more[i], limit)
    ensures var jam, ops := [Jam(user, trace, limit, now)], [Jam(user, trace, limit, now)] + more;
      && Claimable(Exec(ops).tasks, user, trace, {}, TaskRef(trace, "f"))
      && Exec(ops).tasks == Exec(jam).tasks && TotalClaims(ops) == 0
  {
    var jam := [Jam(user, trace, limit, now)];
    JamJams(user, trace, limit, now);
    if more == [] {
      assert jam + more == jam && Init(jam) == [];
      assert TotalClaims([]) == 0;
    } else {
      assert Init(jam + more) == jam + Init(more) && Last(jam + more) == Last(more);
      StarvesForGood(user, trace, limit, now, Init(more));
      RoutineKeepsJam(Exec(jam + Init(more)), user, trace, limit, Last(more));
    }
  }
}
