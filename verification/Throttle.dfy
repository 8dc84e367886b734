/**
 The sliding-window limiter of the edge message pipeline. It keeps one short queue of admission times per
 node and per tenant; the claims compare those queues with the full, never trimmed admission history.
 Times are integers in any tick; floating-point rounding of `now - window` is not part of the model.
 */
module Throttle {
  import opened Common

  datatype Scope = Node | Tenant

  datatype Attempt = Attempt(at: int, node: string, tenant: string)

  datatype Verdict = Admitted | NodeLimited | TenantLimited

  datatype Limits = Limits(node: nat, tenant: nat, window: nat)

  /** The constructor raises every setting to at least 1. */
  function MakeLimits(node: int, tenant: int, window: int): (c: Limits)
    ensures c.node >= 1 && c.tenant >= 1 && c.window >= 1
    ensures (node >= 1 ==> c.node == node) && (tenant >= 1 ==> c.tenant == tenant) && (window >= 1 ==> c.window == window)
    ensures (node < 1 ==> c.node == 1) && (tenant < 1 ==> c.tenant == 1) && (window < 1 ==> c.window == 1)
  {
    Limits(Max(1, node), Max(1, tenant), Max(1, window))
  }

  datatype Limiter = Limiter(nodes: map<string, seq<int>>, tenants: map<string, seq<int>>)

  const FRESH := Limiter(map[], map[])

  function KeyOf(scope: Scope, m: Attempt): string {
    if scope.Node? then m.node else m.tenant
  }

  function LimitOf(scope: Scope, c: Limits): nat {
    if scope.Node? then c.node else c.tenant
  }

  /** A missing queue is created empty on first access. */
  function QueueIn(table: map<string, seq<int>>, key: string): seq<int> {
    if key in table then table[key] else []
  }

  function Queue(s: Limiter, scope: Scope, key: string): seq<int> {
    QueueIn(if scope.Node? then s.nodes else s.tenants, key)
  }

  function Trimmed(hits: seq<int>, cutoff: int): seq<int> {
    if hits == [] || hits[0] >= cutoff then hits else Trimmed(hits[1..], cutoff)
  }

  /** The queue a message is counted in, trimmed at its arrival. */
  function Live(c: Limits, s: Limiter, scope: Scope, m: Attempt): seq<int> {
    Trimmed(Queue(s, scope, KeyOf(scope, m)), m.at - c.window)
  }

  function Judge(c: Limits, s: Limiter, m: Attempt): Verdict {
    if |Live(c, s, Node, m)| >= c.node then NodeLimited
    else if |Live(c, s, Tenant, m)| >= c.tenant then TenantLimited
    else Admitted
  }

  /** Both queues are trimmed even when the message is refused. */
  function After(c: Limits, s: Limiter, m: Attempt): Limiter {
    var n, t := Live(c, s, Node, m), Live(c, s, Tenant, m);
    if Judge(c, s, m) == Admitted
    then Limiter(s.nodes[m.node := n + [m.at]], s.tenants[m.tenant := t + [m.at]])
    else Limiter(s.nodes[m.node := n], s.tenants[m.tenant := t])
  }

  class ThrottleLayer {
    const limits: Limits
    var nodeHits: map<string, seq<int>>
    var tenantHits: map<string, seq<int>>

    ghost function State(): Limiter
      reads this
    {
      Limiter(nodeHits, tenantHits)
    }

    constructor (nodeLimit: int, tenantLimit: int, window: int)
      ensures State() == FRESH && limits == MakeLimits(nodeLimit, tenantLimit, window)
    {
      limits := MakeLimits(nodeLimit, tenantLimit, window);
      nodeHits, tenantHits := map[], map[];
    }

    method Trim(hits: seq<int>, now: int) returns (kept: seq<int>)
      ensures kept == Trimmed(hits, now - limits.window)
    {
      var cutoff := now - limits.window;
      kept := hits;
      while kept != [] && kept[0] < cutoff
        invariant Trimmed(hits, cutoff) == Trimmed(kept, cutoff)
        decreases |kept|
      {
        kept := kept[1..];
      }
    }

    method Process(m: Attempt) returns (verdict: Verdict)
      modifies this
      ensures verdict == Judge(limits, old(State()), m)
      ensures State() == After(limits, old(State()), m)
    {
      var nodeQueue := Trim(QueueIn(nodeHits, m.node), m.at);
      var tenantQueue := Trim(QueueIn(tenantHits, m.tenant), m.at);
      ghost var s := State();
      assert nodeQueue == Live(limits, s, Node, m) && tenantQueue == Live(limits, s, Tenant, m);
      nodeHits := nodeHits[m.node := nodeQueue];
      tenantHits := tenantHits[m.tenant := tenantQueue];
      if |nodeQueue| >= limits.node {
        return NodeLimited;
      }
      if |tenantQueue| >= limits.tenant {
        return TenantLimited;
      }
      nodeHits := nodeHits[m.node := nodeHits[m.node] + [m.at]];
      tenantHits := tenantHits[m.tenant := tenantHits[m.tenant] + [m.at]];
      return Admitted;
    }
  }

  // ----- runs and the full history -----

  function Exec(c: Limits, ms: seq<Attempt>): Limiter {
    if ms == [] then FRESH else After(c, Exec(c, Init(ms)), Last(ms))
  }

  /** Every admission there ever was. */
  function History(c: Limits, ms: seq<Attempt>): seq<Attempt> {
    if ms == [] then [] else Recorded(c, Exec(c, Init(ms)), History(c, Init(ms)), Last(ms))
  }

  /** The admission times of one node or tenant. */
  function Log(h: seq<Attempt>, scope: Scope, key: string): seq<int> {
    if h == [] then []
    else Log(Init(h), scope, key) + (if KeyOf(scope, Last(h)) == key then [Last(h).at] else [])
  }

  function From(log: seq<int>, lo: int): seq<int> {
    if log == [] then [] else From(Init(log), lo) + (if Last(log) >= lo then [Last(log)] else [])
  }

  /** How many admissions fall into the closed interval. */
  function Count(log: seq<int>, lo: int, hi: int): nat {
    if log == [] then 0 else Count(Init(log), lo, hi) + (if lo <= Last(log) <= hi then 1 else 0)
  }

  ghost predicate Sorted(log: seq<int>) {
    forall i, j :: 0 <= i <= j < |log| ==> log[i] <= log[j]
  }

  ghost predicate Monotone(ms: seq<Attempt>) {
    forall i, j :: 0 <= i <= j < |ms| ==> ms[i].at <= ms[j].at
  }

  // ----- trimming is filtering -----

  lemma {:induction false} TrimTwice(log: seq<int>, c: int, d: int)
    requires c <= d
    ensures Trimmed(Trimmed(log, c), d) == Trimmed(log, d)
  {
    if log != [] && log[0] < c {
      TrimTwice(log[1..], c, d);
    }
  }

  lemma {:induction false} TrimAppend(log: seq<int>, c: int, t: int)
    requires t >= c
    ensures Trimmed(log, c) + [t] == Trimmed(log + [t], c)
  {
    if log == [] {
      assert log + [t] == [t];
    } else if log[0] < c {
      TrimAppend(log[1..], c, t);
      assert (log + [t])[1..] == log[1..] + [t];
    }
  }

  lemma {:induction false} TrimIsFilter(log: seq<int>, c: int)
    requires Sorted(log)
    ensures Trimmed(log, c) == From(log, c)
  {
    if log != [] {
      TrimIsFilter(Init(log), c);
      assert log == Init(log) + [Last(log)];
      if Last(log) >= c {
        TrimAppend(Init(log), c, Last(log));
      } else {
        AllOldTrimmed(log, c);
        AllOldTrimmed(Init(log), c);
      }
    }
  }

  lemma {:induction false} AllOldTrimmed(log: seq<int>, c: int)
    requires forall i :: 0 <= i < |log| ==> log[i] < c
    ensures Trimmed(log, c) == []
  {
    if log != [] {
      AllOldTrimmed(log[1..], c);
    }
  }

  lemma {:induction false} FilterSize(log: seq<int>, lo: int, hi: int)
    requires forall i :: 0 <= i < |log| ==> log[i] <= hi
    ensures |From(log, lo)| == Count(log, lo, hi)
  {
    if log != [] {
      FilterSize(Init(log), lo, hi);
    }
  }

  lemma {:induction false} CountNarrower(log: seq<int>, lo: int, hi: int, lo': int, hi': int)
    requires lo <= lo' && forall i :: 0 <= i < |log| ==> log[i] <= hi
    ensures Count(log, lo', hi') <= Count(log, lo, hi)
  {
    if log != [] {
      CountNarrower(Init(log), lo, hi, lo', hi');
    }
  }

  // ----- the queues against the history -----

  lemma {:induction false} LogBounds(h: seq<Attempt>, scope: Scope, key: string, now: int)
    requires Monotone(h) && forall i :: 0 <= i < |h| ==> h[i].at <= now
    ensures var log := Log(h, scope, key); Sorted(log) && forall i :: 0 <= i < |log| ==> log[i] <= now
  {
    if h != [] {
      LogBounds(Init(h), scope, key, Last(h).at);
    }
  }

  lemma LogStep(h: seq<Attempt>, m: Attempt, scope: Scope, key: string)
    ensures Log(h + [m], scope, key) == if KeyOf(scope, m) == key then Log(h, scope, key) + [m.at] else Log(h, scope, key)
  {
    assert Init(h + [m]) == h;
    assert Log(h, scope, key) + [] == Log(h, scope, key);
  }

  /** The queue is the log with a stale prefix removed. */
  ghost predicate StalePrefixCut(queue: seq<int>, log: seq<int>, bound: int) {
    exists cut :: cut <= bound && queue == Trimmed(log, cut)
  }

  ghost predicate QueueFits(c: Limits, s: Limiter, h: seq<Attempt>, now: int, scope: Scope, key: string) {
    StalePrefixCut(Queue(s, scope, key), Log(h, scope, key), now - c.window)
  }

  ghost predicate Tracks(c: Limits, s: Limiter, h: seq<Attempt>, now: int) {
    && Monotone(h)
    && (forall i :: 0 <= i < |h| ==> h[i].at <= now)
    && (forall scope, key {:trigger QueueFits(c, s, h, now, scope, key)} :: QueueFits(c, s, h, now, scope, key))
  }

  lemma TrimmedLog(log: seq<int>, cut: int, cutoff: int, now: int)
    requires cut <= cutoff && Sorted(log) && forall i :: 0 <= i < |log| ==> log[i] <= now
    ensures Trimmed(Trimmed(log, cut), cutoff) == From(log, cutoff) == Trimmed(log, cutoff)
    ensures |Trimmed(log, cutoff)| == Count(log, cutoff, now)
  {
    TrimTwice(log, cut, cutoff);
    TrimIsFilter(log, cutoff);
    FilterSize(log, cutoff, now);
  }

  lemma HistoryWindow(h: seq<Attempt>, scope: Scope, key: string, cut: int, cutoff: int, now: int)
    requires cut <= cutoff && Monotone(h) && forall i :: 0 <= i < |h| ==> h[i].at <= now
    ensures var log := Log(h, scope, key);
      && Trimmed(Trimmed(log, cut), cutoff) == From(log, cutoff) == Trimmed(log, cutoff)
      && |Trimmed(log, cutoff)| == Count(log, cutoff, now)
  {
    LogBounds(h, scope, key, now);
    TrimmedLog(Log(h, scope, key), cut, cutoff, now);
  }

  lemma QueueCut(c: Limits, s: Limiter, h: seq<Attempt>, now: int, scope: Scope, key: string) returns (cut: int)
    requires Tracks(c, s, h, now)
    ensures cut <= now - c.window && Queue(s, scope, key) == Trimmed(Log(h, scope, key), cut)
  {
    assert QueueFits(c, s, h, now, scope, key);
    cut :| cut <= now - c.window && Queue(s, scope, key) == Trimmed(Log(h, scope, key), cut);
  }

  /** After trimming, a queue is exactly the window part of the full history. */
  lemma QueueIsWindow(c: Limits, s: Limiter, h: seq<Attempt>, m: Attempt, scope: Scope, now: int)
    requires Tracks(c, s, h, now) && now <= m.at
    ensures var log := Log(h, scope, KeyOf(scope, m));
      && Live(c, s, scope, m) == From(log, m.at - c.window) == Trimmed(log, m.at - c.window)
      && |Live(c, s, scope, m)| == Count(log, m.at - c.window, m.at)
  {
    var cut := QueueCut(c, s, h, now, scope, KeyOf(scope, m));
    HistoryWindow(h, scope, KeyOf(scope, m), cut, m.at - c.window, m.at);
  }

  function Recorded(c: Limits, s: Limiter, h: seq<Attempt>, m: Attempt): seq<Attempt> {
    if Judge(c, s, m) == Admitted then h + [m] else h
  }

  lemma QueueStep(c: Limits, s: Limiter, m: Attempt, scope: Scope, key: string)
    ensures Queue(After(c, s, m), scope, key)
         == if KeyOf(scope, m) != key then Queue(s, scope, key)
            else if Judge(c, s, m) == Admitted then Live(c, s, scope, m) + [m.at]
            else Live(c, s, scope, m)
  {
  }

  lemma TracksStep(c: Limits, s: Limiter, h: seq<Attempt>, m: Attempt, now: int)
    requires Tracks(c, s, h, now) && now <= m.at
    ensures Tracks(c, After(c, s, m), Recorded(c, s, h, m), m.at)
  {
    var h' := Recorded(c, s, h, m);
    forall scope, key
      ensures QueueFits(c, After(c, s, m), h', m.at, scope, key)
    {
      TracksStepQueue(c, s, h, m, now, scope, key);
    }
  }

  lemma TracksStepQueue(c: Limits, s: Limiter, h: seq<Attempt>, m: Attempt, now: int, scope: Scope, key: string)
    requires Tracks(c, s, h, now) && now <= m.at
    ensures QueueFits(c, After(c, s, m), Recorded(c, s, h, m), m.at, scope, key)
  {
    var h' := Recorded(c, s, h, m);
    QueueStep(c, s, m, scope, key);
    LogStep(h, m, scope, key);
    if KeyOf(scope, m) == key {
      OwnQueue(c, s, h, m, now, scope);
    } else {
      var cut := QueueCut(c, s, h, now, scope, key);
      assert Queue(After(c, s, m), scope, key) == Trimmed(Log(h', scope, key), cut);
    }
  }

  lemma OwnQueue(c: Limits, s: Limiter, h: seq<Attempt>, m: Attempt, now: int, scope: Scope)
    requires Tracks(c, s, h, now) && now <= m.at
    ensures Queue(After(c, s, m), scope, KeyOf(scope, m)) == Trimmed(Log(Recorded(c, s, h, m), scope, KeyOf(scope, m)), m.at - c.window)
  {
    var key := KeyOf(scope, m);
    QueueStep(c, s, m, scope, key);
    LogStep(h, m, scope, key);
    assert Live(c, s, scope, m) == Trimmed(Log(h, scope, key), m.at - c.window) by {
      QueueIsWindow(c, s, h, m, scope, now);
    }
    TrimAppend(Log(h, scope, key), m.at - c.window, m.at);
  }

  lemma {:induction false} RunTracks(c: Limits, ms: seq<Attempt>, now: int)
    requires Monotone(ms) && forall i :: 0 <= i < |ms| ==> ms[i].at <= now
    ensures Tracks(c, Exec(c, ms), History(c, ms), now)
  {
    if ms == [] {
      forall scope, key
        ensures QueueFits(c, FRESH, [], now, scope, key)
      {
        assert Trimmed([], now - c.window) == [];
      }
    } else {
      RunTracks(c, Init(ms), Last(ms).at);
      TracksStep(c, Exec(c, Init(ms)), History(c, Init(ms)), Last(ms), Last(ms).at);
      LaterTracks(c, After(c, Exec(c, Init(ms)), Last(ms)), Recorded(c, Exec(c, Init(ms)), History(c, Init(ms)), Last(ms)), Last(ms).at, now);
    }
  }

  lemma LaterTracks(c: Limits, s: Limiter, h: seq<Attempt>, now: int, later: int)
    requires Tracks(c, s, h, now) && now <= later
    ensures Tracks(c, s, h, later)
  {
    forall scope, key
      ensures QueueFits(c, s, h, later, scope, key)
    {
      assert QueueFits(c, s, h, now, scope, key);
    }
  }

  /** The admissions of a message's node or tenant in the window that ends at its arrival. */
  function Recent(c: Limits, h: seq<Attempt>, scope: Scope, m: Attempt): nat {
    Count(Log(h, scope, KeyOf(scope, m)), m.at - c.window, m.at)
  }

  /** A message is refused exactly when the admissions of the last window have used up a limit. */
  lemma {:induction false} RefusedOnlyAtLimit(c: Limits, ms: seq<Attempt>, m: Attempt)
    requires Monotone(ms) && forall i :: 0 <= i < |ms| ==> ms[i].at <= m.at
    ensures Judge(c, Exec(c, ms), m)
         == if Recent(c, History(c, ms), Node, m) >= c.node then NodeLimited
            else if Recent(c, History(c, ms), Tenant, m) >= c.tenant then TenantLimited
            else Admitted
  {
    RunTracks(c, ms, m.at);
    JudgeByHistory(c, Exec(c, ms), History(c, ms), m, m.at);
  }

  lemma JudgeByHistory(c: Limits, s: Limiter, h: seq<Attempt>, m: Attempt, now: int)
    requires Tracks(c, s, h, now) && now <= m.at
    ensures Judge(c, s, m)
         == if Recent(c, h, Node, m) >= c.node then NodeLimited
            else if Recent(c, h, Tenant, m) >= c.tenant then TenantLimited
            else Admitted
  {
    LiveCount(c, s, h, m, Node, now);
    LiveCount(c, s, h, m, Tenant, now);
  }

  lemma LiveCount(c: Limits, s: Limiter, h: seq<Attempt>, m: Attempt, scope: Scope, now: int)
    requires Tracks(c, s, h, now) && now <= m.at
    ensures |Live(c, s, scope, m)| == Recent(c, h, scope, m)
  {
    QueueIsWindow(c, s, h, m, scope, now);
  }

  /** No closed interval of window length ever holds more admissions of a node or a tenant than its limit. */
  lemma {:induction false} SlidingWindowLimit(c: Limits, ms: seq<Attempt>, scope: Scope, key: string, start: int)
    requires Monotone(ms)
    ensures Count(Log(History(c, ms), scope, key), start, start + c.window) <= LimitOf(scope, c)
  {
    if ms != [] {
      var m, s, h := Last(ms), Exec(c, Init(ms)), History(c, Init(ms));
      SlidingWindowLimit(c, Init(ms), scope, key, start);
      RunTracks(c, Init(ms), m.at);
      LimitStep(c, s, h, m, scope, key, start);
    }
  }

  lemma LimitStep(c: Limits, s: Limiter, h: seq<Attempt>, m: Attempt, scope: Scope, key: string, start: int)
    requires Tracks(c, s, h, m.at)
    requires Count(Log(h, scope, key), start, start + c.window) <= LimitOf(scope, c)
    ensures Count(Log(Recorded(c, s, h, m), scope, key), start, start + c.window) <= LimitOf(scope, c)
  {
    var log := Log(h, scope, key);
    LogStep(h, m, scope, key);
    if Judge(c, s, m) == Admitted && KeyOf(scope, m) == key {
      AdmittedBelow(c, s, h, m, scope);
      LogBounds(h, scope, key, m.at);
      LimitSnoc(log, m.at, c.window, LimitOf(scope, c), start);
    }
  }

  lemma AdmittedBelow(c: Limits, s: Limiter, h: seq<Attempt>, m: Attempt, scope: Scope)
    requires Tracks(c, s, h, m.at) && Judge(c, s, m) == Admitted
    ensures Count(Log(h, scope, KeyOf(scope, m)), m.at - c.window, m.at) < LimitOf(scope, c)
  {
    LiveCount(c, s, h, m, scope, m.at);
  }

  lemma LimitSnoc(log: seq<int>, t: int, window: nat, limit: nat, start: int)
    requires forall i :: 0 <= i < |log| ==> log[i] <= t
    requires Count(log, start, start + window) <= limit && Count(log, t - window, t) < limit
    ensures Count(log + [t], start, start + window) <= limit
  {
    assert Init(log + [t]) == log;
    if start <= t <= start + window {
      CountNarrower(log, t - window, t, start, start + window);
    }
  }
}
