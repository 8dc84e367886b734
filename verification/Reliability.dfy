/** The time-limited duplicate filter of the edge message pipeline, against the list of everything it let through. */
module Reliability {
  import opened Common

  datatype Arrival = Arrival(key: string, at: int)

  /** The table of keys seen, each with its expiry time, after expired ones are pruned. */
  function Pruned(seen: map<string, int>, now: int): map<string, int> {
    map k | k in seen && seen[k] > now :: seen[k]
  }

  predicate Duplicate(seen: map<string, int>, a: Arrival) {
    a.key in Pruned(seen, a.at)
  }

  /** A duplicate leaves the expiry of its key as it is. */
  function After(ttl: nat, seen: map<string, int>, a: Arrival): map<string, int> {
    if Duplicate(seen, a) then Pruned(seen, a.at) else Pruned(seen, a.at)[a.key := a.at + ttl]
  }

  function MakeTtl(ttl: int): (t: nat)
    ensures t == if ttl >= 1 then ttl else 1
  {
    Max(1, ttl)
  }

  class ReliabilityLayer {
    const ttl: nat
    var seen: map<string, int>

    constructor (ttlSeconds: int)
      ensures seen == map[] && ttl == MakeTtl(ttlSeconds)
    {
      ttl := MakeTtl(ttlSeconds);
      seen := map[];
    }

    method Prune(now: int)
      modifies this
      ensures seen == Pruned(old(seen), now)
    {
      var expired := set k | k in seen && seen[k] <= now;
      var todo := expired;
      while todo != {}
        invariant todo <= expired
        invariant seen == map k | k in old(seen) && k !in expired - todo :: old(seen)[k]
      {
        var k :| k in todo;
        seen := seen - {k};
        todo := todo - {k};
      }
    }

    method Process(a: Arrival) returns (passed: bool)
      modifies this
      ensures passed == !Duplicate(old(seen), a)
      ensures seen == After(ttl, old(seen), a)
    {
      Prune(a.at);
      if a.key in seen {
        return false;
      }
      seen := seen[a.key := a.at + ttl];
      return true;
    }
  }

  // ----- runs -----

  function Exec(ttl: nat, arrivals: seq<Arrival>): map<string, int> {
    if arrivals == [] then map[] else After(ttl, Exec(ttl, Init(arrivals)), Last(arrivals))
  }

  /** Everything let through, in order. */
  function Passed(ttl: nat, arrivals: seq<Arrival>): seq<Arrival> {
    if arrivals == [] then []
    else if Duplicate(Exec(ttl, Init(arrivals)), Last(arrivals)) then Passed(ttl, Init(arrivals))
    else Passed(ttl, Init(arrivals)) + [Last(arrivals)]
  }

  ghost predicate Monotone(arrivals: seq<Arrival>) {
    forall i, j :: 0 <= i <= j < |arrivals| ==> arrivals[i].at <= arrivals[j].at
  }

  ghost predicate UpTo(arrivals: seq<Arrival>, now: int) {
    Monotone(arrivals) && forall i :: 0 <= i < |arrivals| ==> arrivals[i].at <= now
  }

  /** The table holds the expiry of the latest pass of a key, or nothing once that has expired. */
  ghost predicate KeyFits(ttl: nat, seen: map<string, int>, passed: seq<Arrival>, now: int, k: string) {
    && (k in seen ==> Arrival(k, seen[k] - ttl) in passed)
    && (forall t :: Arrival(k, t) in passed ==> t + ttl <= if k in seen then seen[k] else now)
  }

  ghost predicate Tracks(ttl: nat, seen: map<string, int>, passed: seq<Arrival>, now: int) {
    forall k {:trigger KeyFits(ttl, seen, passed, now, k)} :: KeyFits(ttl, seen, passed, now, k)
  }

  lemma TracksStep(ttl: nat, seen: map<string, int>, passed: seq<Arrival>, now: int, a: Arrival)
    requires Tracks(ttl, seen, passed, now) && now <= a.at
    ensures Tracks(ttl, After(ttl, seen, a), if Duplicate(seen, a) then passed else passed + [a], a.at)
  {
    var passed' := if Duplicate(seen, a) then passed else passed + [a];
    forall k
      ensures KeyFits(ttl, After(ttl, seen, a), passed', a.at, k)
    {
      assert KeyFits(ttl, seen, passed, now, k);
      assert forall t :: Arrival(k, t) in passed' <==> Arrival(k, t) in passed || (!Duplicate(seen, a) && Arrival(k, t) == a);
    }
  }

  lemma {:induction false} RunTracks(ttl: nat, arrivals: seq<Arrival>, now: int)
    requires UpTo(arrivals, now)
    ensures Tracks(ttl, Exec(ttl, arrivals), Passed(ttl, arrivals), now)
  {
    if arrivals != [] {
      var seen, passed, a := Exec(ttl, Init(arrivals)), Passed(ttl, Init(arrivals)), Last(arrivals);
      RunTracks(ttl, Init(arrivals), a.at);
      TracksStep(ttl, seen, passed, a.at, a);
      forall k
        ensures KeyFits(ttl, Exec(ttl, arrivals), Passed(ttl, arrivals), now, k)
      {
        assert KeyFits(ttl, Exec(ttl, arrivals), Passed(ttl, arrivals), a.at, k);
      }
    } else {
      forall k
        ensures KeyFits(ttl, map[], [], now, k)
      {
      }
    }
  }

  /** The same key was let through less than a ttl before. */
  ghost predicate RecentlyPassed(ttl: nat, passed: seq<Arrival>, a: Arrival) {
    exists t :: Arrival(a.key, t) in passed && a.at < t + ttl
  }

  /**
   An arrival is dropped exactly when the same key was let through within the last ttl. The right side
   mentions passes only, so dropped duplicates never extend the window.
   */
  lemma {:induction false} DroppedOnlyWithinTtl(ttl: nat, arrivals: seq<Arrival>, a: Arrival)
    requires UpTo(arrivals, a.at)
    ensures Duplicate(Exec(ttl, arrivals), a) <==> RecentlyPassed(ttl, Passed(ttl, arrivals), a)
  {
    RunTracks(ttl, arrivals, a.at);
    assert KeyFits(ttl, Exec(ttl, arrivals), Passed(ttl, arrivals), a.at, a.key);
  }

  /** Two passes of the same key are at least a ttl apart. */
  lemma {:induction false} PassesAreSpaced(ttl: nat, arrivals: seq<Arrival>, i: nat, j: nat)
    requires Monotone(arrivals) && i < j < |Passed(ttl, arrivals)|
    requires Passed(ttl, arrivals)[i].key == Passed(ttl, arrivals)[j].key
    ensures Passed(ttl, arrivals)[i].at + ttl <= Passed(ttl, arrivals)[j].at
  {
    var before := Passed(ttl, Init(arrivals));
    if j < |before| {
      PassesAreSpaced(ttl, Init(arrivals), i, j);
    } else {
      DroppedOnlyWithinTtl(ttl, Init(arrivals), Last(arrivals));
      assert !RecentlyPassed(ttl, before, Last(arrivals));
      assert before[i] in before && before[i] == Arrival(Last(arrivals).key, before[i].at);
    }
  }
}
