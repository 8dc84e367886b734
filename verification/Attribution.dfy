/**
 Credit attribution: each run's conversion value is split over its touchpoints by weights, and summed per
 channel and per lobster. Amounts are exact; the rounding to four places on output is not modelled.
 */
module Attribution {
  import opened Common

  datatype Model = FirstTouch | LastTouch | Linear | UShape

  datatype Touchpoint = Touchpoint(channel: string, lobster: string)

  datatype ConversionRun = ConversionRun(value: real, touchpoints: seq<Touchpoint>)

  // ----- weights -----

  function Repeat(x: real, n: nat): (r: seq<real>)
    ensures |r| == n && forall i :: 0 <= i < n ==> r[i] == x
  {
    seq(n, _ => x)
  }

  function Weights(count: int, model: Model): seq<real> {
    if count <= 0 then []
    else if count == 1 then [1.0]
    else match model
      case FirstTouch => [1.0] + Repeat(0.0, count - 1)
      case LastTouch => Repeat(0.0, count - 1) + [1.0]
      case Linear => Repeat(1.0 / count as real, count)
      case UShape => if count == 2 then [0.5, 0.5] else [0.4] + Repeat(0.2 / (count - 2) as real, count - 2) + [0.4]
  }

  function SumOf(xs: seq<real>): real {
    if xs == [] then 0.0 else SumOf(Init(xs)) + Last(xs)
  }

  lemma {:induction false} SumConcat(xs: seq<real>, ys: seq<real>)
    ensures SumOf(xs + ys) == SumOf(xs) + SumOf(ys)
  {
    if ys == [] {
      assert xs + ys == xs;
    } else {
      assert Init(xs + ys) == xs + Init(ys);
      SumConcat(xs, Init(ys));
    }
  }

  lemma SumOne(x: real)
    ensures SumOf([x]) == x
  {
    assert Init([x]) == [] && SumOf([]) == 0.0;
  }

  lemma {:induction false} SumRepeat(x: real, n: nat)
    ensures SumOf(Repeat(x, n)) == n as real * x
  {
    if n > 0 {
      assert Init(Repeat(x, n)) == Repeat(x, n - 1);
      SumRepeat(x, n - 1);
    }
  }

  ghost predicate Shares(w: seq<real>) {
    SumOf(w) == 1.0 && forall i :: 0 <= i < |w| ==> 0.0 <= w[i] <= 1.0
  }

  lemma OneSided(n: nat)
    ensures Shares([1.0] + Repeat(0.0, n)) && Shares(Repeat(0.0, n) + [1.0])
  {
    SumOne(1.0);
    SumRepeat(0.0, n);
    SumConcat([1.0], Repeat(0.0, n));
    SumConcat(Repeat(0.0, n), [1.0]);
  }

  lemma Quotient(x: real, n: nat)
    requires n > 0 && 0.0 <= x <= 1.0
    ensures 0.0 <= x / n as real <= 1.0 && n as real * (x / n as real) == x
  {
    var q := x / n as real;
    assert n as real * q == x;
    assert n as real >= 1.0;
  }

  lemma EvenShares(n: nat)
    requires n > 0
    ensures Shares(Repeat(1.0 / n as real, n))
  {
    Quotient(1.0, n);
    SumRepeat(1.0 / n as real, n);
  }

  lemma UShares(n: nat)
    requires n > 0
    ensures Shares([0.4] + Repeat(0.2 / n as real, n) + [0.4])
  {
    var middle := Repeat(0.2 / n as real, n);
    Quotient(0.2, n);
    SumRepeat(0.2 / n as real, n);
    SumOne(0.4);
    SumConcat([0.4], middle);
    SumConcat([0.4] + middle, [0.4]);
  }

  /** For every model and every positive count there is one non-negative weight per touchpoint, and they sum to one. */
  lemma WeightsAreShares(count: int, model: Model)
    ensures |Weights(count, model)| == Max(0, count)
    ensures count > 0 ==> Shares(Weights(count, model))
  {
    SumOne(1.0);
    SumOne(0.5);
    SumConcat([0.5], [0.5]);
    assert [0.5] + [0.5] == [0.5, 0.5];
    if count >= 2 {
      OneSided(count - 1);
      EvenShares(count);
      if count > 2 {
        UShares(count - 2);
      }
    }
  }

  /**
   How a model may tell touchpoints apart: only the first counts, only the last counts, none differs, or the
   two ends are alike, all others are alike, and the others together get a fifth if there are any.
   */
  ghost predicate Profile(model: Model, w: seq<real>) {
    match model
    case FirstTouch => forall i :: 1 <= i < |w| ==> w[i] == 0.0
    case LastTouch => forall i :: 0 <= i < |w| - 1 ==> w[i] == 0.0
    case Linear => forall i, j :: 0 <= i < |w| && 0 <= j < |w| ==> w[i] == w[j]
    case UShape =>
      && (|w| > 0 ==> w[0] == Last(w))
      && (forall i, j :: 1 <= i < |w| - 1 && 1 <= j < |w| - 1 ==> w[i] == w[j])
      && (|w| > 2 ==> SumOf(w[1..|w| - 1]) == 0.2)
  }

  lemma FirstTouchOnly(w: seq<real>)
    requires |w| >= 1 && SumOf(w) == 1.0 && Profile(FirstTouch, w)
    ensures w == [1.0] + Repeat(0.0, |w| - 1)
  {
    assert w == [w[0]] + Repeat(0.0, |w| - 1);
    SumOne(w[0]);
    SumRepeat(0.0, |w| - 1);
    SumConcat([w[0]], Repeat(0.0, |w| - 1));
  }

  lemma LastTouchOnly(w: seq<real>)
    requires |w| >= 1 && SumOf(w) == 1.0 && Profile(LastTouch, w)
    ensures w == Repeat(0.0, |w| - 1) + [1.0]
  {
    assert Init(w) == Repeat(0.0, |w| - 1);
    SumRepeat(0.0, |w| - 1);
  }

  lemma OnePart(x: real, n: nat, total: real)
    requires n > 0 && n as real * x == total
    ensures x == total / n as real
  {
  }

  lemma LinearOnly(w: seq<real>)
    requires |w| >= 1 && SumOf(w) == 1.0 && Profile(Linear, w)
    ensures w == Repeat(1.0 / |w| as real, |w|)
  {
    assert w == Repeat(w[0], |w|);
    SumRepeat(w[0], |w|);
    OnePart(w[0], |w|, 1.0);
  }

  lemma Frame(w: seq<real>)
    requires |w| >= 3 && Profile(UShape, w)
    ensures w == [w[0]] + Repeat(w[1], |w| - 2) + [w[0]] && w[1..|w| - 1] == Repeat(w[1], |w| - 2)
  {
    assert forall i :: 1 <= i < |w| - 1 ==> w[i] == w[1];
    assert w == [w[0]] + Repeat(w[1], |w| - 2) + [Last(w)];
  }

  lemma FramedSum(end: real, middle: seq<real>)
    ensures SumOf([end] + middle + [end]) == end + SumOf(middle) + end
  {
    SumOne(end);
    SumConcat([end], middle);
    SumConcat([end] + middle, [end]);
  }

  lemma MiddlePart(x: real, n: nat)
    requires n > 0 && SumOf(Repeat(x, n)) == 0.2
    ensures x == 0.2 / n as real
  {
    SumRepeat(x, n);
    OnePart(x, n, 0.2);
  }

  lemma UShapeOnly(w: seq<real>)
    requires |w| >= 3 && SumOf(w) == 1.0 && Profile(UShape, w)
    ensures w == [0.4] + Repeat(0.2 / (|w| - 2) as real, |w| - 2) + [0.4]
  {
    Frame(w);
    FramedSum(w[0], Repeat(w[1], |w| - 2));
    MiddlePart(w[1], |w| - 2);
  }

  lemma OneOrTwo(w: seq<real>)
    requires 1 <= |w| <= 2 && w[0] == Last(w)
    ensures SumOf(w) == |w| as real * w[0]
  {
    if |w| == 1 {
      SumOne(w[0]);
      assert w == [w[0]];
    } else {
      SumOne(w[0]);
      SumConcat([w[0]], [w[0]]);
      assert w == [w[0]] + [w[0]];
    }
  }

  lemma Framed(end: real, x: real, n: nat)
    ensures var w := [end] + Repeat(x, n) + [end];
      && w[0] == Last(w) == end && w[1..|w| - 1] == Repeat(x, n)
      && forall i :: 1 <= i < |w| - 1 ==> w[i] == x
  {
    var w := [end] + Repeat(x, n) + [end];
    assert w[1..|w| - 1] == Repeat(x, n);
  }

  lemma UShapeProfile(n: nat)
    requires n > 0
    ensures Profile(UShape, [0.4] + Repeat(0.2 / n as real, n) + [0.4])
  {
    Quotient(0.2, n);
    var x := 0.2 / n as real;
    Framed(0.4, x, n);
    SumRepeat(x, n);
  }

  lemma ProfileOfWeights(count: int, model: Model)
    requires count >= 1
    ensures Profile(model, Weights(count, model))
  {
    if count > 2 && model == UShape {
      UShapeProfile(count - 2);
    }
  }

  /** The weights of a model are the only sharing of one conversion that fits its profile. */
  lemma WeightsByModel(count: int, model: Model, w: seq<real>)
    requires |w| == count && count >= 1
    ensures w == Weights(count, model) <==> SumOf(w) == 1.0 && Profile(model, w)
  {
    WeightsAreShares(count, model);
    ProfileOfWeights(count, model);
    if SumOf(w) == 1.0 && Profile(model, w) {
      if count == 1 {
        SumOne(w[0]);
        assert w == [w[0]];
      } else {
        match model
        case FirstTouch => FirstTouchOnly(w);
        case LastTouch => LastTouchOnly(w);
        case Linear => LinearOnly(w);
        case UShape =>
          if count == 2 { OneOrTwo(w); } else { UShapeOnly(w); }
      }
    }
  }

  /** Reversing the journey swaps first and last touch; linear and U-shaped shares are symmetric. */
  lemma {:induction false} WeightsMirror(count: int, model: Model, i: int)
    requires 0 <= i < count
    ensures var other := match model case FirstTouch => LastTouch case LastTouch => FirstTouch case m => m;
      |Weights(count, model)| == |Weights(count, other)| == count
      && Weights(count, model)[i] == Weights(count, other)[count - 1 - i]
  {
  }

  // ----- rollups -----

  datatype Dimension = ByChannel | ByLobster

  type Rollup = map<string, real>

  function KeyOf(t: Touchpoint, d: Dimension): string {
    var key := if d == ByChannel then t.channel else t.lobster;
    if key == "" then "unknown" else key
  }

  function Credited(rollup: Rollup, key: string, credit: real): Rollup {
    rollup[key := (if key in rollup then rollup[key] else 0.0) + credit]
  }

  function Scale(x: real, w: seq<real>): (r: seq<real>)
    ensures |r| == |w|
  {
    seq(|w|, i requires 0 <= i < |w| => x * w[i])
  }

  lemma {:induction false} SumScaled(x: real, w: seq<real>)
    ensures SumOf(Scale(x, w)) == x * SumOf(w)
  {
    if w != [] {
      var a, b := Init(Scale(x, w)), Scale(x, Init(w));
      forall i | 0 <= i < |a|
        ensures a[i] == b[i]
      {
        assert Scale(x, w)[i] == x * w[i] && b[i] == x * Init(w)[i];
      }
      assert a == b;
      SumScaled(x, Init(w));
    }
  }

  /** What each touchpoint of a run is credited. */
  function Credits(run: ConversionRun, model: Model): (r: seq<real>)
    ensures |r| == |run.touchpoints|
  {
    Scale(run.value, Weights(|run.touchpoints|, model))
  }

  /** The rollup after the first n touchpoints of a run. */
  function CreditPoints(rollup: Rollup, points: seq<Touchpoint>, credits: seq<real>, d: Dimension, n: nat): Rollup
    requires n <= |points| == |credits|
  {
    if n == 0 then rollup
    else Credited(CreditPoints(rollup, points, credits, d, n - 1), KeyOf(points[n - 1], d), credits[n - 1])
  }

  function CreditRun(rollup: Rollup, run: ConversionRun, model: Model, d: Dimension): Rollup {
    CreditPoints(rollup, run.touchpoints, Credits(run, model), d, |run.touchpoints|)
  }

  function CreditRuns(runs: seq<ConversionRun>, model: Model, d: Dimension): Rollup {
    if runs == [] then map[] else CreditRun(CreditRuns(Init(runs), model, d), Last(runs), model, d)
  }

  ghost function Total(m: Rollup): real
    decreases |m|
  {
    if m == map[] then 0.0 else
      var k :| k in m;
      m[k] + Total(m - {k})
  }

  lemma {:induction false} TotalRemove(m: Rollup, k: string)
    requires k in m
    ensures Total(m) == m[k] + Total(m - {k})
    decreases |m|
  {
    var j :| j in m && Total(m) == m[j] + Total(m - {j});
    if j != k {
      TotalRemove(m - {j}, k);
      TotalRemove(m - {k}, j);
      assert m - {j} - {k} == m - {k} - {j};
    }
  }

  lemma TotalCredited(m: Rollup, key: string, credit: real)
    ensures Total(Credited(m, key, credit)) == Total(m) + credit
  {
    var after := Credited(m, key, credit);
    TotalRemove(after, key);
    assert after - {key} == m - {key};
    if key in m {
      TotalRemove(m, key);
    } else {
      assert m - {key} == m;
    }
  }

  lemma {:induction false} TotalOfPoints(rollup: Rollup, points: seq<Touchpoint>, credits: seq<real>, d: Dimension, n: nat)
    requires n <= |points| == |credits|
    ensures Total(CreditPoints(rollup, points, credits, d, n)) == Total(rollup) + SumOf(credits[..n])
  {
    if n > 0 {
      TotalOfPoints(rollup, points, credits, d, n - 1);
      TotalCredited(CreditPoints(rollup, points, credits, d, n - 1), KeyOf(points[n - 1], d), credits[n - 1]);
      PrefixStep(credits, n - 1);
    }
  }

  /** The conversion value of all runs that have a touchpoint. */
  function Converted(runs: seq<ConversionRun>): real {
    if runs == [] then 0.0 else Converted(Init(runs)) + if Last(runs).touchpoints == [] then 0.0 else Last(runs).value
  }

  lemma CreditsOfRun(run: ConversionRun, model: Model)
    ensures SumOf(Credits(run, model)) == if run.touchpoints == [] then 0.0 else run.value
  {
    SumScaled(run.value, Weights(|run.touchpoints|, model));
    WeightsAreShares(|run.touchpoints|, model);
  }

  /** No credit is lost or invented: under every model both rollups sum to the value of the runs with a touchpoint. */
  lemma {:induction false} CreditConserved(runs: seq<ConversionRun>, model: Model, d: Dimension)
    ensures Total(CreditRuns(runs, model, d)) == Converted(runs)
  {
    if runs != [] {
      var run, credits := Last(runs), Credits(Last(runs), model);
      CreditConserved(Init(runs), model, d);
      TotalOfPoints(CreditRuns(Init(runs), model, d), run.touchpoints, credits, d, |credits|);
      assert credits[..|credits|] == credits;
      CreditsOfRun(run, model);
    }
  }

  /** One key's part of the first n credits of a run. */
  function KeyCredit(points: seq<Touchpoint>, credits: seq<real>, d: Dimension, key: string, n: nat): real
    requires n <= |points| == |credits|
  {
    if n == 0 then 0.0
    else KeyCredit(points, credits, d, key, n - 1) + if GoesBy(points[n - 1], d, key) then credits[n - 1] else 0.0
  }

  function Earned(runs: seq<ConversionRun>, model: Model, d: Dimension, key: string): real {
    if runs == [] then 0.0
    else
      var run := Last(runs);
      Earned(Init(runs), model, d, key) + KeyCredit(run.touchpoints, Credits(run, model), d, key, |run.touchpoints|)
  }

  /** The touchpoint goes by this name in the dimension; an empty name goes by "unknown". */
  predicate GoesBy(t: Touchpoint, d: Dimension, key: string) {
    match d
    case ByChannel => (t.channel == key && key != "") || (t.channel == "" && key == "unknown")
    case ByLobster => (t.lobster == key && key != "") || (t.lobster == "" && key == "unknown")
  }

  lemma KeyMeans(t: Touchpoint, d: Dimension, key: string)
    ensures KeyOf(t, d) == key <==> GoesBy(t, d, key)
  {
  }

  ghost predicate Touched(points: seq<Touchpoint>, d: Dimension, key: string) {
    exists t :: t in points && GoesBy(t, d, key)
  }

  function CreditOf(rollup: Rollup, key: string): real {
    if key in rollup then rollup[key] else 0.0
  }

  lemma {:induction false} PointsByKey(rollup: Rollup, points: seq<Touchpoint>, credits: seq<real>, d: Dimension, key: string, n: nat)
    requires n <= |points| == |credits|
    ensures var after := CreditPoints(rollup, points, credits, d, n);
      && (key in after <==> key in rollup || Touched(points[..n], d, key))
      && CreditOf(after, key) == CreditOf(rollup, key) + KeyCredit(points, credits, d, key, n)
  {
    if n > 0 {
      PointsByKey(rollup, points, credits, d, key, n - 1);
      PrefixStep(points, n - 1);
      KeyMeans(points[n - 1], d, key);
      assert Touched(points[..n], d, key) <==> Touched(points[..n - 1], d, key) || GoesBy(points[n - 1], d, key);
    }
  }

  ghost predicate TouchedInRuns(runs: seq<ConversionRun>, d: Dimension, key: string) {
    exists run :: run in runs && Touched(run.touchpoints, d, key)
  }

  lemma TouchedStep(runs: seq<ConversionRun>, d: Dimension, key: string)
    requires runs != []
    ensures TouchedInRuns(runs, d, key) <==> TouchedInRuns(Init(runs), d, key) || Touched(Last(runs).touchpoints, d, key)
  {
    assert runs == Init(runs) + [Last(runs)];
  }

  /** A rollup lists exactly the keys that were touched, each with the value it earned over all runs. */
  lemma {:induction false} RollupByKey(runs: seq<ConversionRun>, model: Model, d: Dimension, key: string)
    ensures key in CreditRuns(runs, model, d) <==> TouchedInRuns(runs, d, key)
    ensures CreditOf(CreditRuns(runs, model, d), key) == Earned(runs, model, d, key)
  {
    if runs != [] {
      var run, before := Last(runs), CreditRuns(Init(runs), model, d);
      RollupByKey(Init(runs), model, d, key);
      RunByKey(before, run, model, d, key);
      TouchedStep(runs, d, key);
    }
  }

  lemma RunByKey(rollup: Rollup, run: ConversionRun, model: Model, d: Dimension, key: string)
    ensures var after := CreditRun(rollup, run, model, d);
      && (key in after <==> key in rollup || Touched(run.touchpoints, d, key))
      && CreditOf(after, key) == CreditOf(rollup, key) + KeyCredit(run.touchpoints, Credits(run, model), d, key, |run.touchpoints|)
  {
    PointsByKey(rollup, run.touchpoints, Credits(run, model), d, key, |run.touchpoints|);
    assert run.touchpoints[..|run.touchpoints|] == run.touchpoints;
  }

  // ----- the loops -----

  datatype WeightedPoint = WeightedPoint(touchpoint: Touchpoint, weight: real, credit: real)

  datatype Report = Report(runCount: nat, channels: seq<Line>, lobsters: seq<Line>, runs: seq<seq<WeightedPoint>>)

  const SHOWN := 50

  function WeightedPoints(touchpoints: seq<Touchpoint>, weights: seq<real>, credits: seq<real>, n: nat): (r: seq<WeightedPoint>)
    requires n <= |touchpoints| == |weights| == |credits|
  {
    if n == 0 then []
    else WeightedPoints(touchpoints, weights, credits, n - 1) + [WeightedPoint(touchpoints[n - 1], weights[n - 1], credits[n - 1])]
  }

  lemma {:induction false} WeightedPointAt(touchpoints: seq<Touchpoint>, weights: seq<real>, credits: seq<real>, n: nat, i: nat)
    requires i < n <= |touchpoints| == |weights| == |credits|
    ensures |WeightedPoints(touchpoints, weights, credits, n)| == n
    ensures WeightedPoints(touchpoints, weights, credits, n)[i] == WeightedPoint(touchpoints[i], weights[i], credits[i])
  {
    if n > 1 {
      WeightedPointAt(touchpoints, weights, credits, n - 1, if i < n - 1 then i else 0);
    }
  }

  ghost predicate Weighted(points: seq<WeightedPoint>, run: ConversionRun, model: Model) {
    var weights := Weights(|run.touchpoints|, model);
    |weights| == |run.touchpoints| && points == WeightedPoints(run.touchpoints, weights, Credits(run, model), |run.touchpoints|)
  }

  ghost predicate Summarised(summaries: seq<seq<WeightedPoint>>, runs: seq<ConversionRun>, model: Model) {
    |summaries| <= |runs| && forall r :: 0 <= r < |summaries| ==> Weighted(summaries[r], runs[r], model)
  }

  lemma SummaryStep(summaries: seq<seq<WeightedPoint>>, points: seq<WeightedPoint>, runs: seq<ConversionRun>, model: Model)
    requires |summaries| < |runs| && Summarised(summaries, runs, model)
    requires Weighted(points, runs[|summaries|], model)
    ensures Summarised(summaries + [points], runs, model)
  {
  }

  lemma SummaryCut(summaries: seq<seq<WeightedPoint>>, runs: seq<ConversionRun>, model: Model)
    requires Summarised(summaries, runs, model)
    ensures Summarised(First(summaries, SHOWN), runs, model)
  {
  }

  method Attribute(runs: seq<ConversionRun>, model: Model) returns (report: Report)
    ensures report.runCount == |runs|
    ensures Ranked(report.channels, CreditRuns(runs, model, ByChannel)) && Ranked(report.lobsters, CreditRuns(runs, model, ByLobster))
    ensures |report.runs| == if |runs| < 50 then |runs| else 50
    ensures Summarised(report.runs, runs, model)
  {
    var channels: Rollup, lobsters: Rollup := map[], map[];
    var summaries: seq<seq<WeightedPoint>> := [];
    for r := 0 to |runs|
      invariant channels == CreditRuns(runs[..r], model, ByChannel) && lobsters == CreditRuns(runs[..r], model, ByLobster)
      invariant |summaries| == r
      invariant Summarised(summaries, runs, model)
    {
      var points;
      channels, lobsters, points := AttributeRun(channels, lobsters, runs[r], model);
      SummaryStep(summaries, points, runs, model);
      summaries := summaries + [points];
      PrefixStep(runs, r);
    }
    assert runs[..|runs|] == runs;
    SummaryCut(summaries, runs, model);
    var channelLines := SortedRollup(channels);
    var lobsterLines := SortedRollup(lobsters);
    report := Report(|runs|, channelLines, lobsterLines, First(summaries, SHOWN));
  }

  method AttributeRun(channelsBefore: Rollup, lobstersBefore: Rollup, run: ConversionRun, model: Model)
    returns (channels: Rollup, lobsters: Rollup, points: seq<WeightedPoint>)
    ensures channels == CreditRun(channelsBefore, run, model, ByChannel)
    ensures lobsters == CreditRun(lobstersBefore, run, model, ByLobster)
    ensures Weighted(points, run, model)
  {
    var weights := Weights(|run.touchpoints|, model);
    channels, lobsters, points := AttributePoints(channelsBefore, lobstersBefore, run.touchpoints, run.value, weights);
  }

  method CreditFor(value: real, weights: seq<real>, i: nat) returns (credit: real)
    requires i < |weights|
    ensures credit == Scale(value, weights)[i]
  {
    credit := value * weights[i];
  }

  /** rollup[key] = rollup.get(key, 0.0) + credit */
  method AddCredit(rollup: Rollup, t: Touchpoint, credit: real, d: Dimension,
                   ghost before: Rollup, ghost points: seq<Touchpoint>, ghost credits: seq<real>, ghost i: nat) returns (after: Rollup)
    requires i < |points| == |credits| && t == points[i] && credit == credits[i]
    requires rollup == CreditPoints(before, points, credits, d, i)
    ensures after == CreditPoints(before, points, credits, d, i + 1)
  {
    after := Credited(rollup, KeyOf(t, d), credit);
  }

  method AttributePoints(channelsBefore: Rollup, lobstersBefore: Rollup, touchpoints: seq<Touchpoint>, value: real, weights: seq<real>)
    returns (channels: Rollup, lobsters: Rollup, points: seq<WeightedPoint>)
    requires |weights| == |touchpoints|
    ensures channels == CreditPoints(channelsBefore, touchpoints, Scale(value, weights), ByChannel, |touchpoints|)
    ensures lobsters == CreditPoints(lobstersBefore, touchpoints, Scale(value, weights), ByLobster, |touchpoints|)
    ensures points == WeightedPoints(touchpoints, weights, Scale(value, weights), |touchpoints|)
  {
    ghost var credits := Scale(value, weights);
    channels, lobsters, points := channelsBefore, lobstersBefore, [];
    for i := 0 to |touchpoints|
      invariant channels == CreditPoints(channelsBefore, touchpoints, credits, ByChannel, i)
      invariant lobsters == CreditPoints(lobstersBefore, touchpoints, credits, ByLobster, i)
      invariant points == WeightedPoints(touchpoints, weights, credits, i)
    {
      var t := touchpoints[i];
      var credit := CreditFor(value, weights, i);
      channels := AddCredit(channels, t, credit, ByChannel, channelsBefore, touchpoints, credits, i);
      lobsters := AddCredit(lobsters, t, credit, ByLobster, lobstersBefore, touchpoints, credits, i);
      points := points + [WeightedPoint(t, weights[i], credit)];
    }
  }

  // ----- the sorted rollup -----

  datatype Line = Line(key: string, credit: real)

  /** Character by character; a proper prefix comes first. */
  predicate Precedes(a: string, b: string) {
    if b == "" then false
    else if a == "" then true
    else a[0] < b[0] || (a[0] == b[0] && Precedes(a[1..], b[1..]))
  }

  lemma {:induction false} PrecedesTotal(a: string, b: string)
    ensures Precedes(a, b) || Precedes(b, a) || a == b
    ensures !(Precedes(a, b) && Precedes(b, a)) && !Precedes(a, a)
  {
    if a != "" && b != "" && a[0] == b[0] {
      PrecedesTotal(a[1..], b[1..]);
      assert a == [a[0]] + a[1..] && b == [b[0]] + b[1..];
    }
    if a != "" {
      PrecedesTotal(a[1..], a[1..]);
    }
  }

  lemma {:induction false} PrecedesTransitive(a: string, b: string, c: string)
    requires Precedes(a, b) && Precedes(b, c)
    ensures Precedes(a, c)
  {
    if a != "" && a[0] == b[0] && b[0] == c[0] {
      PrecedesTransitive(a[1..], b[1..], c[1..]);
    }
  }

  /** Larger credit first, then the key in alphabetical order. */
  predicate Above(a: Line, b: Line) {
    a.credit > b.credit || (a.credit == b.credit && Precedes(a.key, b.key))
  }

  /** The lines are the entries of the rollup, each once, and every line is above all later ones. */
  ghost predicate Ranked(lines: seq<Line>, rollup: Rollup) {
    && (forall key, credit :: Line(key, credit) in lines <==> key in rollup && rollup[key] == credit)
    && (forall i, j :: 0 <= i < j < |lines| ==> Above(lines[i], lines[j]))
  }

  lemma AboveTransitive(a: Line, b: Line, c: Line)
    requires Above(a, b) && Above(b, c)
    ensures Above(a, c)
  {
    if a.credit == c.credit {
      PrecedesTransitive(a.key, b.key, c.key);
    }
  }

  function InsertLine(lines: seq<Line>, x: Line): seq<Line> {
    if lines == [] || Above(Last(lines), x) then lines + [x] else InsertLine(Init(lines), x) + [Last(lines)]
  }

  ghost predicate Descending(lines: seq<Line>) {
    forall i, j :: 0 <= i < j < |lines| ==> Above(lines[i], lines[j])
  }

  lemma {:induction false} InsertLineRanks(lines: seq<Line>, x: Line)
    requires Descending(lines) && forall y :: y in lines ==> y.key != x.key
    ensures Descending(InsertLine(lines, x))
    ensures forall y :: y in InsertLine(lines, x) <==> y == x || y in lines
  {
    if lines == [] {
    } else if Above(Last(lines), x) {
      forall i | 0 <= i < |lines| - 1
        ensures Above(lines[i], x)
      {
        AboveTransitive(lines[i], Last(lines), x);
      }
    } else {
      assert lines == Init(lines) + [Last(lines)];
      InsertLineRanks(Init(lines), x);
      PrecedesTotal(x.key, Last(lines).key);
      assert Last(lines) in lines && Above(x, Last(lines));
      assert forall y :: y in Init(lines) ==> Above(y, Last(lines));
    }
  }

  method SortedRollup(rollup: Rollup) returns (lines: seq<Line>)
    ensures Ranked(lines, rollup)
  {
    lines := [];
    var rest := rollup.Keys;
    while rest != {}
      invariant rest <= rollup.Keys && Descending(lines)
      invariant forall y :: y in lines <==> y.key in rollup && y.key !in rest && rollup[y.key] == y.credit
      decreases |rest|
    {
      var key :| key in rest;
      InsertLineRanks(lines, Line(key, rollup[key]));
      lines := InsertLine(lines, Line(key, rollup[key]));
      rest := rest - {key};
    }
  }

  /** After a common start one text ends, or has the smaller character. */
  ghost predicate InDictionaryOrder(a: string, b: string) {
    exists n :: SplitAt(a, b, n)
  }

  predicate SplitAt(a: string, b: string, n: nat) {
    n <= |a| && n < |b| && a[..n] == b[..n] && (n == |a| || a[n] < b[n])
  }

  lemma {:induction false} PrecedesMeans(a: string, b: string)
    ensures Precedes(a, b) <==> InDictionaryOrder(a, b)
  {
    if a != "" && b != "" && a[0] == b[0] {
      PrecedesMeans(a[1..], b[1..]);
      if Precedes(a[1..], b[1..]) {
        var n: nat :| SplitAt(a[1..], b[1..], n);
        assert a[..n + 1] == [a[0]] + a[1..][..n] && b[..n + 1] == [b[0]] + b[1..][..n];
        assert SplitAt(a, b, n + 1);
      }
      if InDictionaryOrder(a, b) {
        var n: nat :| SplitAt(a, b, n);
        assert n > 0;
        assert a[1..][..n - 1] == a[..n][1..] && b[1..][..n - 1] == b[..n][1..];
        assert SplitAt(a[1..], b[1..], n - 1);
      }
    } else if Precedes(a, b) {
      assert SplitAt(a, b, 0);
    } else {
      forall n: nat
        ensures !SplitAt(a, b, n)
      {
        if 0 < n <= |a| && n < |b| {
          assert a[..n][0] == a[0] && b[..n][0] == b[0];
        }
      }
    }
  }

  /** Every line has at least the credit of all later ones, and comes first in dictionary order among its equals. */
  lemma RankedOrder(lines: seq<Line>, rollup: Rollup, i: nat, j: nat)
    requires Ranked(lines, rollup) && i < j < |lines|
    ensures lines[i].credit >= lines[j].credit
    ensures lines[i].credit == lines[j].credit ==> InDictionaryOrder(lines[i].key, lines[j].key)
  {
    assert Above(lines[i], lines[j]);
    PrecedesMeans(lines[i].key, lines[j].key);
  }

  function LineTotal(lines: seq<Line>): real {
    if lines == [] then 0.0 else LineTotal(Init(lines)) + Last(lines).credit
  }

  /** The ranked lines carry the whole credit of the rollup. */
  lemma {:induction false} RankedTotal(lines: seq<Line>, rollup: Rollup)
    requires Ranked(lines, rollup)
    ensures LineTotal(lines) == Total(rollup)
  {
    if lines == [] {
      forall key
        ensures key !in rollup
      {
        assert Line(key, CreditOf(rollup, key)) !in lines;
      }
      assert rollup == map[];
    } else {
      var last := Last(lines);
      assert lines == Init(lines) + [last] && last in lines;
      assert last == Line(last.key, last.credit);
      RankedInit(lines, rollup);
      TotalRemove(rollup, last.key);
      RankedTotal(Init(lines), rollup - {last.key});
    }
  }

  lemma RankedInit(lines: seq<Line>, rollup: Rollup)
    requires Ranked(lines, rollup) && lines != []
    ensures Ranked(Init(lines), rollup - {Last(lines).key})
  {
    var last := Last(lines);
    assert last in lines && last == Line(last.key, last.credit);
    assert !Above(last, last) by {
      PrecedesTotal(last.key, last.key);
    }
    assert forall i :: 0 <= i < |lines| - 1 ==> Above(lines[i], last);
    forall key, credit
      ensures Line(key, credit) in Init(lines) <==> key in rollup - {last.key} && rollup[key] == credit
    {
      assert Line(key, credit) in lines <==> Line(key, credit) in Init(lines) || Line(key, credit) == last;
    }
  }
}
