/**
 One alert rule under a sequence of timed evaluations. Times are integers in seconds; the configuration
 of the rule does not change during a run.
 */
module Alert {
  import opened Common

  datatype AlertState = Normal | Pending | Firing | Silenced

  datatype Rule = Rule(state: AlertState, pendingSince: Option<int>, lastFiredAt: Option<int>, lastResolvedAt: Option<int>)

  datatype Timing = Timing(pendingSeconds: int, silenceSeconds: int)

  datatype Event = Fired(at: int) | Resolved(firedAt: int, at: int)

  datatype Evaluation = Evaluation(at: int, breached: bool)

  const NEW_RULE := Rule(Normal, None, None, None)

  /** An unknown condition is read as ">". */
  predicate CheckThreshold(value: real, condition: string, threshold: real) {
    match condition
    case "<" => value < threshold
    case "<=" => value <= threshold
    case ">=" => value >= threshold
    case "==" => value == threshold
    case _ => value > threshold
  }

  /** The rule stays silent: a silence is configured and the last firing is too recent. */
  predicate Quiet(c: Timing, r: Rule, now: int) {
    r.lastFiredAt.Some? && c.silenceSeconds > 0 && now - r.lastFiredAt.value < c.silenceSeconds
  }

  predicate PendingIsOver(c: Timing, r: Rule, now: int) {
    r.pendingSince.Some? && now - r.pendingSince.value >= c.pendingSeconds
  }

  function Next(c: Timing, r: Rule, e: Evaluation): (Rule, Option<Event>) {
    match r.state
    case Normal => if e.breached then (r.(state := Pending, pendingSince := Some(e.at)), None) else (r, None)
    case Pending =>
      if !e.breached then (r.(state := Normal, pendingSince := None), None)
      else if PendingIsOver(c, r, e.at) then (r.(state := Firing, pendingSince := None, lastFiredAt := Some(e.at)), Some(Fired(e.at)))
      else (r, None)
    case Firing =>
      if !e.breached then
        (r.(state := Normal, lastResolvedAt := Some(e.at)),
         Some(Resolved(if r.lastFiredAt.Some? then r.lastFiredAt.value else e.at, e.at)))
      else if Quiet(c, r, e.at) then (r, None)
      else (r.(lastFiredAt := Some(e.at)), Some(Fired(e.at)))
    case Silenced => (r, None)
  }

  /** The stored rule and its event table. */
  class AlertRule {
    const timing: Timing
    var state: AlertState
    var pendingSince: Option<int>
    var lastFiredAt: Option<int>
    var lastResolvedAt: Option<int>
    var events: seq<Event>

    ghost function Contents(): Rule
      reads this
    {
      Rule(state, pendingSince, lastFiredAt, lastResolvedAt)
    }

    constructor (pendingSeconds: int, silenceSeconds: int)
      ensures Contents() == NEW_RULE && events == [] && timing == Timing(pendingSeconds, silenceSeconds)
    {
      timing := Timing(pendingSeconds, silenceSeconds);
      state, pendingSince, lastFiredAt, lastResolvedAt, events := Normal, None, None, None, [];
    }

    method Evaluate(value: real, condition: string, threshold: real, now: int) returns (event: Option<Event>)
      modifies this
      ensures (Contents(), event) == Next(timing, old(Contents()), Evaluation(now, CheckThreshold(value, condition, threshold)))
      ensures events == old(events) + if event.Some? then [event.value] else []
    {
      var breached := CheckThreshold(value, condition, threshold);
      event := None;
      if state == Normal && breached {
        state := Pending;
        pendingSince := Some(now);
        return;
      }
      if state == Pending {
        if !breached {
          state := Normal;
          pendingSince := None;
          return;
        }
        if pendingSince.Some? && now - pendingSince.value >= timing.pendingSeconds {
          state := Firing;
          pendingSince := None;
          lastFiredAt := Some(now);
          event := Some(Fired(now));
          events := events + [Fired(now)];
        }
        return;
      }
      if state == Firing {
        if !breached {
          state := Normal;
          lastResolvedAt := Some(now);
          event := Some(Resolved(if lastFiredAt.Some? then lastFiredAt.value else now, now));
          events := events + [event.value];
          return;
        }
        if lastFiredAt.Some? && timing.silenceSeconds > 0 && now - lastFiredAt.value < timing.silenceSeconds {
          return;
        }
        lastFiredAt := Some(now);
        event := Some(Fired(now));
        events := events + [Fired(now)];
      }
    }
  }

  // ----- runs -----

  function Exec(c: Timing, es: seq<Evaluation>): Rule {
    if es == [] then NEW_RULE else Next(c, Exec(c, Init(es)), Last(es)).0
  }

  function EventLog(c: Timing, es: seq<Evaluation>): seq<Event> {
    if es == [] then []
    else
      var event := Next(c, Exec(c, Init(es)), Last(es)).1;
      if event.Some? then EventLog(c, Init(es)) + [event.value] else EventLog(c, Init(es))
  }

  // ----- the state, read off the history -----

  /** Where the breach that is still going on began; the length of the history if there is none. */
  function BreachStart(es: seq<Evaluation>): (i: nat)
    ensures i <= |es|
    ensures forall k :: i <= k < |es| ==> es[k].breached
    ensures i > 0 ==> !es[i - 1].breached
  {
    if es == [] || !Last(es).breached then |es| else BreachStart(Init(es))
  }

  /** Some later evaluation of the current breach came at least pendingSeconds after its first one. */
  ghost predicate Sustained(c: Timing, es: seq<Evaluation>) {
    exists k :: BreachStart(es) < k < |es| && es[k].at - es[BreachStart(es)].at >= c.pendingSeconds
  }

  /**
   The state is a function of the current breach: none, normal; not sustained yet, pending since its first
   evaluation; sustained, firing. No assumption on the clock is needed.
   */
  lemma {:induction false} StateFromHistory(c: Timing, es: seq<Evaluation>)
    ensures var r, i := Exec(c, es), BreachStart(es);
      && (r.state == Normal <==> i == |es|)
      && (r.state == Pending <==> i < |es| && !Sustained(c, es))
      && (r.state == Firing <==> Sustained(c, es))
      && r.pendingSince == (if r.state == Pending then Some(es[i].at) else None)
  {
    if es != [] {
      var before, e, i := Init(es), Last(es), BreachStart(Init(es));
      StateFromHistory(c, before);
      if e.breached {
        assert BreachStart(es) == i;
        if Sustained(c, before) {
          var k :| i < k < |before| && before[k].at - before[i].at >= c.pendingSeconds;
          assert es[k] == before[k] && es[i] == before[i];
        } else if i < |before| {
          assert Sustained(c, es) <==> e.at - before[i].at >= c.pendingSeconds;
        }
      }
    }
  }

  /**
   Sustained breach: a rule starts to fire only on at least two breached evaluations without a gap, the
   first of them at least pendingSeconds earlier.
   */
  lemma {:induction false} FiringNeedsSustainedBreach(c: Timing, es: seq<Evaluation>)
    requires es != [] && Exec(c, Init(es)).state != Firing && Exec(c, es).state == Firing
    ensures exists i :: 0 <= i < |es| - 1 && es[i].at <= Last(es).at - c.pendingSeconds
                        && forall k :: i <= k < |es| ==> es[k].breached
    ensures Exec(c, Init(es)).state == Pending && EventLog(c, es) == EventLog(c, Init(es)) + [Fired(Last(es).at)]
  {
    StateFromHistory(c, Init(es));
    StateFromHistory(c, es);
    var i := BreachStart(es);
    var k :| i < k < |es| && es[k].at - es[i].at >= c.pendingSeconds;
    assert i == BreachStart(Init(es));
    assert forall j :: 0 <= j < |es| - 1 ==> Init(es)[j] == es[j];
  }

  // ----- the event log -----

  datatype Phase = Calm | Alarmed(lastFired: int) | Broken

  function Accept(c: Timing, phase: Phase, event: Event): Phase {
    match (phase, event)
    case (Calm, Fired(at)) => Alarmed(at)
    case (Alarmed(last), Fired(at)) => if c.silenceSeconds > 0 && at - last < c.silenceSeconds then Broken else Alarmed(at)
    case (Alarmed(last), Resolved(firedAt, _)) => if firedAt == last then Calm else Broken
    case _ => Broken
  }

  /**
   Reads a log as (Fired+ Resolved)* Fired*: within an episode firings are at least a silence apart, and a
   resolution carries the time of the last firing.
   */
  function Read(c: Timing, log: seq<Event>): Phase {
    if log == [] then Calm else Accept(c, Read(c, Init(log)), Last(log))
  }

  /** Where a log must be when the rule is in this state. */
  function PhaseOf(r: Rule): Phase {
    if r.state != Firing then Calm else if r.lastFiredAt.Some? then Alarmed(r.lastFiredAt.value) else Broken
  }

  lemma StepKeepsPhase(c: Timing, r: Rule, e: Evaluation)
    requires r.state != Silenced && PhaseOf(r) != Broken
    ensures var (r', event) := Next(c, r, e);
      r'.state != Silenced && PhaseOf(r') == (if event.Some? then Accept(c, PhaseOf(r), event.value) else PhaseOf(r)) != Broken
  {
  }

  lemma {:induction false} LogFollowsState(c: Timing, es: seq<Evaluation>)
    ensures Exec(c, es).state != Silenced
    ensures Read(c, EventLog(c, es)) == PhaseOf(Exec(c, es)) != Broken
  {
    if es != [] {
      LogFollowsState(c, Init(es));
      StepKeepsPhase(c, Exec(c, Init(es)), Last(es));
      var event := Next(c, Exec(c, Init(es)), Last(es)).1;
      if event.Some? {
        ReadSnoc(c, EventLog(c, Init(es)), event.value);
      }
    }
  }

  lemma ReadSnoc(c: Timing, log: seq<Event>, event: Event)
    ensures Read(c, log + [event]) == Accept(c, Read(c, log), event)
  {
    assert Init(log + [event]) == log;
  }

  /** Every log a rule can produce fits the grammar. */
  lemma LogGrammar(c: Timing, es: seq<Evaluation>)
    ensures Read(c, EventLog(c, es)) != Broken
  {
    LogFollowsState(c, es);
  }

  /** A log that fits the grammar has no two resolutions in a row, starts with a firing and keeps its firings apart. */
  lemma {:induction false} GrammarMeaning(c: Timing, log: seq<Event>, i: nat)
    requires Read(c, log) != Broken && i < |log|
    ensures i == 0 ==> log[i].Fired?
    ensures log[i].Resolved? ==> i > 0 && log[i - 1] == Fired(log[i].firedAt)
    ensures i > 0 && log[i - 1].Fired? && log[i].Fired? && c.silenceSeconds > 0 ==> log[i].at - log[i - 1].at >= c.silenceSeconds
  {
    if i < |log| - 1 {
      GrammarMeaning(c, Init(log), i);
    } else if i > 0 {
      ReadLast(c, Init(log));
    }
  }

  lemma ReadLast(c: Timing, log: seq<Event>)
    requires log != [] && Read(c, log) != Broken
    ensures Read(c, log) == match Last(log) case Fired(at) => Alarmed(at) case Resolved(_, _) => Calm
  {
  }

  /** A firing rule that is still breached fires again exactly when the silence since its last firing is over. */
  lemma {:induction false} RefiresAfterSilence(c: Timing, es: seq<Evaluation>, e: Evaluation)
    requires Exec(c, es).state == Firing && e.breached
    ensures Exec(c, es).lastFiredAt.Some?
    ensures var last := Exec(c, es).lastFiredAt.value;
      EventLog(c, es + [e]) == if c.silenceSeconds <= 0 || e.at - last >= c.silenceSeconds
                               then EventLog(c, es) + [Fired(e.at)] else EventLog(c, es)
  {
    LogFollowsState(c, es);
    assert Init(es + [e]) == es;
  }

  /** The time of the last firing, or of the last resolution, in a log. */
  function LastTime(log: seq<Event>, resolved: bool): Option<int> {
    if log == [] then None
    else if Last(log).Resolved? == resolved then Some(Last(log).at)
    else LastTime(Init(log), resolved)
  }

  /** The two times stored with the rule are those of the last firing and the last resolution in its log. */
  lemma {:induction false} TimesFollowLog(c: Timing, es: seq<Evaluation>)
    ensures Exec(c, es).lastFiredAt == LastTime(EventLog(c, es), false)
    ensures Exec(c, es).lastResolvedAt == LastTime(EventLog(c, es), true)
  {
    if es != [] {
      var log, event := EventLog(c, Init(es)), Next(c, Exec(c, Init(es)), Last(es)).1;
      TimesFollowLog(c, Init(es));
      StepTimes(c, Exec(c, Init(es)), Last(es));
      if event.Some? {
        LastTimeSnoc(log, event.value);
      }
    }
  }

  lemma LastTimeSnoc(log: seq<Event>, event: Event)
    ensures LastTime(log + [event], event.Resolved?) == Some(event.at)
    ensures LastTime(log + [event], !event.Resolved?) == LastTime(log, !event.Resolved?)
  {
    assert Init(log + [event]) == log;
  }

  lemma StepTimes(c: Timing, r: Rule, e: Evaluation)
    ensures var (after, event) := Next(c, r, e);
      && after.lastFiredAt == (if event.Some? && event.value.Fired? then Some(event.value.at) else r.lastFiredAt)
      && after.lastResolvedAt == (if event.Some? && event.value.Resolved? then Some(event.value.at) else r.lastResolvedAt)
  {
  }

  // ----- over readings -----

  datatype Reading = Reading(at: int, value: real)

  /** The evaluations of a rule with this condition over the readings it takes. */
  function Evaluations(condition: string, threshold: real, rs: seq<Reading>): (es: seq<Evaluation>)
    ensures |es| == |rs|
  {
    seq(|rs|, i requires 0 <= i < |rs| => Evaluation(rs[i].at, CheckThreshold(rs[i].value, condition, threshold)))
  }

  /** On the wrong side of the threshold, for each condition written out; an unknown one means strictly above. */
  predicate Beyond(condition: string, threshold: real, value: real) {
    || (condition == "<" && value < threshold)
    || (condition == "<=" && !(value > threshold))
    || (condition == ">=" && !(value < threshold))
    || (condition == "==" && !(value < threshold) && !(value > threshold))
    || (condition !in {"<", "<=", ">=", "=="} && value > threshold)
  }

  lemma BreachMeans(condition: string, threshold: real, value: real)
    ensures CheckThreshold(value, condition, threshold) <==> Beyond(condition, threshold, value)
  {
  }

  function RuleAfter(c: Timing, condition: string, threshold: real, rs: seq<Reading>): Rule {
    Exec(c, Evaluations(condition, threshold, rs))
  }

  function LogAfter(c: Timing, condition: string, threshold: real, rs: seq<Reading>): seq<Event> {
    EventLog(c, Evaluations(condition, threshold, rs))
  }

  lemma EvaluationsSnoc(condition: string, threshold: real, rs: seq<Reading>, r: Reading)
    ensures Evaluations(condition, threshold, rs + [r])
         == Evaluations(condition, threshold, rs) + [Evaluation(r.at, Beyond(condition, threshold, r.value))]
  {
    BreachMeans(condition, threshold, r.value);
  }

  /** A rule starts to fire only on an unbroken stretch of readings beyond its threshold that lasts the pending time. */
  lemma FiresOnReadings(c: Timing, condition: string, threshold: real, rs: seq<Reading>, r: Reading)
    requires RuleAfter(c, condition, threshold, rs).state != Firing && RuleAfter(c, condition, threshold, rs + [r]).state == Firing
    ensures exists i :: 0 <= i < |rs| && rs[i].at <= r.at - c.pendingSeconds
              && Beyond(condition, threshold, r.value) && forall k :: i <= k < |rs| ==> Beyond(condition, threshold, rs[k].value)
  {
    var es := Evaluations(condition, threshold, rs + [r]);
    EvaluationsSnoc(condition, threshold, rs, r);
    assert Init(es) == Evaluations(condition, threshold, rs);
    FiringNeedsSustainedBreach(c, es);
    var i :| 0 <= i < |es| - 1 && es[i].at <= Last(es).at - c.pendingSeconds && forall k :: i <= k < |es| ==> es[k].breached;
    forall k | i <= k < |rs|
      ensures Beyond(condition, threshold, rs[k].value)
    {
      assert es[k].breached && es[k] == Evaluations(condition, threshold, rs)[k];
      BreachMeans(condition, threshold, rs[k].value);
    }
    assert es[|rs|].breached && es[i] == Evaluations(condition, threshold, rs)[i];
  }

  /**
   A reading beyond the threshold, and no other, takes a normal rule to pending; any other reading takes every
   rule to normal, and resolves it on the spot if it was firing.
   */
  lemma ReadingsDecide(c: Timing, condition: string, threshold: real, rs: seq<Reading>, r: Reading)
    ensures var before, after := RuleAfter(c, condition, threshold, rs), RuleAfter(c, condition, threshold, rs + [r]);
      && (after.state == Normal <==> !Beyond(condition, threshold, r.value))
      && (before.state == Normal && Beyond(condition, threshold, r.value) ==> after.state == Pending && after.pendingSince == Some(r.at))
      && (before.state == Firing && !Beyond(condition, threshold, r.value) ==>
            before.lastFiredAt.Some? &&
            LogAfter(c, condition, threshold, rs + [r])
              == LogAfter(c, condition, threshold, rs) + [Resolved(before.lastFiredAt.value, r.at)])
      && (before.state != Firing && after.state != Firing ==>
            LogAfter(c, condition, threshold, rs + [r]) == LogAfter(c, condition, threshold, rs))
  {
    var es := Evaluations(condition, threshold, rs);
    EvaluationsSnoc(condition, threshold, rs, r);
    assert Init(Evaluations(condition, threshold, rs + [r])) == es;
    LogFollowsState(c, es);
  }
}
