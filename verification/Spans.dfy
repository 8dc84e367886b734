/**
 Removing the blocks that the artifact classifier already recognised. Matches of several patterns may overlap,
 nest and come in any order; what is left is the text outside all of them.
 */
module Spans {
  import opened Common

  datatype Span = Span(start: nat, end: nat)

  ghost predicate InBounds(spans: seq<Span>, n: nat) {
    forall s :: s in spans ==> s.start <= s.end <= n
  }

  ghost predicate Covered(spans: seq<Span>, i: int) {
    exists s :: s in spans && s.start <= i < s.end
  }

  /** The positions before n that no span covers, in order. */
  ghost function Free(spans: seq<Span>, n: nat): (r: seq<nat>)
    ensures forall k :: 0 <= k < |r| ==> r[k] < n
  {
    if n == 0 then [] else Free(spans, n - 1) + if Covered(spans, n - 1) then [] else [n - 1]
  }

  ghost function Pick(text: string, positions: seq<nat>): string
    requires forall k :: 0 <= k < |positions| ==> positions[k] < |text|
  {
    seq(|positions|, i requires 0 <= i < |positions| => text[positions[i]])
  }

  /** Free lists exactly the uncovered positions, each once and in increasing order. */
  lemma {:induction false} FreeMeaning(spans: seq<Span>, n: nat)
    ensures forall i: nat :: i in Free(spans, n) <==> i < n && !Covered(spans, i)
    ensures forall j, k :: 0 <= j < k < |Free(spans, n)| ==> Free(spans, n)[j] < Free(spans, n)[k]
  {
    if n > 0 {
      FreeMeaning(spans, n - 1);
      var before := Free(spans, n - 1);
      forall i: nat
        ensures i in Free(spans, n) <==> i in before || (i == n - 1 && !Covered(spans, n - 1))
      {
      }
    }
  }

  /** The text left over. */
  ghost function Kept(text: string, spans: seq<Span>, n: nat): string
    requires n <= |text|
  {
    Pick(text, Free(spans, n))
  }

  lemma KeptStep(text: string, spans: seq<Span>, n: nat)
    requires n < |text|
    ensures Kept(text, spans, n + 1) == Kept(text, spans, n) + if Covered(spans, n) then "" else [text[n]]
  {
  }

  lemma {:induction false} KeptCovered(text: string, spans: seq<Span>, lo: nat, hi: nat)
    requires lo <= hi <= |text| && forall i :: lo <= i < hi ==> Covered(spans, i)
    ensures Kept(text, spans, hi) == Kept(text, spans, lo)
    decreases hi
  {
    if lo < hi {
      KeptCovered(text, spans, lo, hi - 1);
      KeptStep(text, spans, hi - 1);
    }
  }

  lemma {:induction false} KeptFree(text: string, spans: seq<Span>, lo: nat, hi: nat)
    requires lo <= hi <= |text| && forall i :: lo <= i < hi ==> !Covered(spans, i)
    ensures Kept(text, spans, hi) == Kept(text, spans, lo) + text[lo..hi]
    decreases hi
  {
    if lo < hi {
      KeptFree(text, spans, lo, hi - 1);
      KeptStep(text, spans, hi - 1);
      assert text[lo..hi] == text[lo..hi - 1] + [text[hi - 1]];
    }
  }

  /** What is left depends on the set of spans, not on their order or repetition. */
  lemma {:induction false} OrderIsIrrelevant(text: string, xs: seq<Span>, ys: seq<Span>, n: nat)
    requires n <= |text| && forall s :: s in xs <==> s in ys
    ensures Kept(text, xs, n) == Kept(text, ys, n)
  {
    if n > 0 {
      OrderIsIrrelevant(text, xs, ys, n - 1);
      KeptStep(text, xs, n - 1);
      KeptStep(text, ys, n - 1);
    }
  }

  // ----- sorting -----

  function Insert(s: seq<Span>, x: Span): seq<Span> {
    if s == [] || Last(s).start <= x.start then s + [x] else Insert(Init(s), x) + [Last(s)]
  }

  /** Stable sort on the start position. */
  function SortByStart(s: seq<Span>): seq<Span> {
    if s == [] then [] else Insert(SortByStart(Init(s)), Last(s))
  }

  ghost predicate Sorted(s: seq<Span>) {
    forall i, j :: 0 <= i < j < |s| ==> s[i].start <= s[j].start
  }

  lemma {:induction false} InsertSorted(s: seq<Span>, x: Span)
    requires Sorted(s)
    ensures Sorted(Insert(s, x))
    ensures forall y :: y in Insert(s, x) <==> y == x || y in s
  {
    if s != [] && Last(s).start > x.start {
      assert s == Init(s) + [Last(s)];
      InsertSorted(Init(s), x);
      assert forall y :: y in Init(s) ==> y.start <= Last(s).start;
    }
  }

  lemma {:induction false} SortByStartSorts(s: seq<Span>)
    ensures Sorted(SortByStart(s))
    ensures forall y :: y in SortByStart(s) <==> y in s
  {
    if s != [] {
      assert s == Init(s) + [Last(s)];
      SortByStartSorts(Init(s));
      InsertSorted(SortByStart(Init(s)), Last(s));
    }
  }

  // ----- the loop -----

  function Join(chunks: seq<string>): string {
    if chunks == [] then "" else Join(Init(chunks)) + Last(chunks)
  }

  lemma JoinSnoc(chunks: seq<string>, chunk: string)
    ensures Join(chunks + [chunk]) == Join(chunks) + chunk
  {
    assert Init(chunks + [chunk]) == chunks;
  }

  /** The first k spans, in order of start, end at or before the cursor, and nothing before it is still to be decided. */
  ghost predicate Consumed(ordered: seq<Span>, k: nat, cursor: nat) {
    k <= |ordered| && forall i :: 0 <= i < k ==> ordered[i].end <= cursor
  }

  /** One turn of the loop: the gap before the next span is free, the rest up to the new cursor is covered. */
  lemma TurnKeeps(text: string, ordered: seq<Span>, k: nat, cursor: nat)
    requires InBounds(ordered, |text|) && Sorted(ordered) && k < |ordered| && Consumed(ordered, k, cursor) && cursor <= |text|
    ensures var s := ordered[k];
      Kept(text, ordered, Max(cursor, s.end)) == Kept(text, ordered, cursor) + if s.start > cursor then text[cursor..s.start] else ""
  {
    var s := ordered[k];
    assert s in ordered;
    var gap := Max(cursor, s.start);
    forall i | cursor <= i < gap
      ensures !Covered(ordered, i)
    {
      forall j | 0 <= j < |ordered|
        ensures !(ordered[j].start <= i < ordered[j].end)
      {
        if j >= k {
          assert ordered[k].start <= ordered[j].start;
        }
      }
    }
    KeptFree(text, ordered, cursor, gap);
    KeptCovered(text, ordered, gap, Max(gap, s.end));
  }

  lemma RestIsFree(text: string, ordered: seq<Span>, cursor: nat)
    requires Consumed(ordered, |ordered|, cursor) && cursor <= |text|
    ensures Kept(text, ordered, |text|) == Kept(text, ordered, cursor) + text[cursor..]
  {
    assert text[cursor..] == text[cursor..|text|];
    forall i | cursor <= i < |text|
      ensures !Covered(ordered, i)
    {
    }
    KeptFree(text, ordered, cursor, |text|);
  }

  method StripConsumed(text: string, spans: seq<Span>) returns (r: string)
    requires InBounds(spans, |text|)
    ensures r == Kept(text, spans, |text|)
  {
    if spans == [] {
      KeptFree(text, spans, 0, |text|);
      return text;
    }
    var ordered := SortByStart(spans);
    SortByStartSorts(spans);
    var chunks: seq<string>, cursor: nat, k: nat := [], 0, 0;
    while k < |ordered|
      invariant k <= |ordered| && cursor <= |text| && Consumed(ordered, k, cursor)
      invariant Join(chunks) == Kept(text, ordered, cursor)
    {
      var s := ordered[k];
      TurnKeeps(text, ordered, k, cursor);
      assert s in ordered;
      if s.start > cursor {
        JoinSnoc(chunks, text[cursor..s.start]);
        chunks := chunks + [text[cursor..s.start]];
      }
      cursor := Max(cursor, s.end);
      k := k + 1;
    }
    RestIsFree(text, ordered, cursor);
    OrderIsIrrelevant(text, ordered, spans, |text|);
    if cursor < |text| {
      JoinSnoc(chunks, text[cursor..]);
      chunks := chunks + [text[cursor..]];
    }
    r := Join(chunks);
  }
}
