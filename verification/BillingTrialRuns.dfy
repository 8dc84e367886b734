/** A started trial through the calls that follow it. */
module BillingTrialRuns {
  import opened Common
  import opened Slug
  import opened Billing
  import opened BillingRuns
  import opened BillingTrials
  import opened BillingEvents

  /** The trial as it was started. */
  predicate TrialRow(c: Catalog, s: Subscription, plan: string, end: int) {
    && plan in c.plans && s.plan == plan && s.cycle == "month" && s.status == "trialing" && s.trialUsed
    && s.tokenLimit == c.plans[plan].tokenLimit && s.runLimit == c.plans[plan].runLimit
    && s.periodEnd == end && s.trialEnd == Some(end)
  }

  /** The free plan that follows it. */
  predicate FreeRow(c: Catalog, s: Subscription)
    requires c.Valid()
  {
    && s.plan == "free" && s.cycle == "month" && s.status == "active" && s.trialUsed
    && s.tokenLimit == c.plans["free"].tokenLimit && s.runLimit == c.plans["free"].runLimit
    && s.trialStart == None && s.trialEnd == None
  }

  /** Before its end the trial stands; later the free plan may have replaced it. */
  predicate Stands(c: Catalog, rows: Rows, a: Account, plan: string, end: int, clock: int)
    requires c.Valid()
  {
    a in rows && (TrialRow(c, rows[a], plan, end) || (end <= clock && FreeRow(c, rows[a])))
  }

  /** The call may touch the account, but is no plan change and no provider event on it. */
  predicate Spares(call: Call, a: Account) {
    call.PlanCall? || call.WebhookCall? ==> Target(call) != a
  }

  predicate Timed(calls: seq<Call>, now: int) {
    calls == [] || (Last(calls).now <= now && Timed(Init(calls), Last(calls).now))
  }

  lemma RolledTrial(c: Catalog, rows: Rows, a: Account, plan: string, end: int, clock: int, now: int)
    requires c.Valid() && Stands(c, rows, a, plan, end, clock) && clock <= now
    ensures var s := Rolled(c, rows[a], now);
      if now < end then s == rows[a] && TrialRow(c, s, plan, end) else FreeRow(c, s) && !Expired(s, now)
  {
    LowerTrialing();
  }

  lemma EnsureStands(c: Catalog, rows: Rows, b: Account, now: int, a: Account, plan: string, end: int, clock: int)
    requires c.Valid() && Stands(c, rows, a, plan, end, clock) && clock <= now
    ensures Stands(c, EnsureAt(c, rows, b, now), a, plan, end, now)
  {
    if a == b {
      RolledTrial(c, rows, a, plan, end, clock, now);
    }
  }

  lemma OtherWriteStands(c: Catalog, rows: Rows, b: Account, s: Subscription, a: Account, plan: string, end: int, clock: int, now: int)
    requires c.Valid() && Stands(c, rows, a, plan, end, clock) && clock <= now && a != b
    ensures Stands(c, rows[b := s], a, plan, end, now)
  {
  }

  lemma TrialStands(c: Catalog, rows: Rows, b: Account, again: Account, p: string, days: int, now: int,
                    a: Account, plan: string, end: int, clock: int)
    requires c.Valid() && p in c.plans && Stands(c, rows, a, plan, end, clock) && clock <= now
    ensures Stands(c, TrialAt(c, rows, b, again, p, days, now).0, a, plan, end, now)
  {
    if b in rows {
      EnsureStands(c, rows, b, now, a, plan, end, clock);
      assert a == b ==> rows[b].trialUsed && EnsureAt(c, rows, b, now) == rows[b := Rolled(c, rows[b], now)];
    } else {
      EnsureStands(c, rows, again, now, a, plan, end, clock);
    }
  }

  lemma ReportStands(c: Catalog, l: Ledger, b: Account, again: Account, runs: int, tokens: int, now: int,
                     a: Account, plan: string, end: int, clock: int)
    requires c.Valid() && Stands(c, l.rows, a, plan, end, clock) && clock <= now
    ensures Stands(c, ReportAt(c, l, b, again, runs, tokens, now).0.rows, a, plan, end, now)
  {
    EnsureStands(c, l.rows, again, now, a, plan, end, clock);
    var rows := EnsureAt(c, l.rows, again, now);
    if a == b {
      RolledTrial(c, rows, a, plan, end, now, now);
    }
  }

  lemma StepStands(c: Catalog, l: Ledger, call: Call, a: Account, plan: string, end: int, clock: int)
    requires c.Valid() && Stands(c, l.rows, a, plan, end, clock) && clock <= call.now && Spares(call, a)
    ensures Stands(c, Step(c, l, call).rows, a, plan, end, call.now)
  {
    var b := Target(call);
    match call
    case EnsureCall(_, _, now) => EnsureStands(c, l.rows, b, now, a, plan, end, clock);
    case GuardCall(_, _, _, _, now) => EnsureStands(c, l.rows, b, now, a, plan, end, clock);
    case PlanCall(_, _, p, cycle, status, now) =>
      var rows := PlanAt(c, l.rows, b, PlanCode(c, p), CycleCode(c, cycle), SafeSlug(status, "active"), now);
      OtherWriteStands(c, l.rows, b, rows[b], a, plan, end, clock, now);
    case WebhookCall(_, _, action, p, cycle, now) =>
      var ensured := EnsureAt(c, l.rows, b, now);
      var t := WebhookTarget(c, EnsuredRow(c, l.rows, b, now), action, p, cycle);
      var rows := PlanAt(c, ensured, b, PlanCode(c, t.plan), CycleCode(c, t.cycle), SafeSlug(t.status, "active"), now);
      EnsureStands(c, l.rows, b, now, a, plan, end, clock);
      OtherWriteStands(c, ensured, b, rows[b], a, plan, end, now, now);
    case TrialCall(_, _, p, days, now) => TrialStands(c, l.rows, b, Again(b), TrialPlan(c, p), days, now, a, plan, end, clock);
    case ReportCall(_, _, runs, tokens, now) => ReportStands(c, l, b, Again(b), runs, tokens, now, a, plan, end, clock);
  }

  function TrialEnd(call: Call): int
    requires call.TrialCall?
  {
    call.now + TrialDays(call.days) * DAY
  }

  lemma StartStands(c: Catalog, l: Ledger, call: Call)
    requires c.Valid() && Starts(c, l.rows, call, Target(call))
    ensures Stands(c, Step(c, l, call).rows, Target(call), TrialPlan(c, call.plan), TrialEnd(call), call.now)
    ensures TrialRow(c, Step(c, l, call).rows[Target(call)], TrialPlan(c, call.plan), TrialEnd(call))
  {
    StartAt(c, l.rows, Target(call), Again(Target(call)), TrialPlan(c, call.plan), call.days, call.now);
  }

  lemma StartAt(c: Catalog, rows: Rows, a: Account, again: Account, plan: string, days: int, now: int)
    requires c.Valid() && plan in c.plans && TrialAt(c, rows, a, again, plan, days, now).1 == None
    ensures var after := TrialAt(c, rows, a, again, plan, days, now).0;
      a in after && TrialRow(c, after[a], plan, now + TrialDays(days) * DAY)
  {
  }

  lemma {:induction false} RunStands(c: Catalog, ops: seq<Call>, more: seq<Call>, a: Account, plan: string, end: int, clock: int, now: int)
    requires c.Valid() && Stands(c, Exec(c, ops).rows, a, plan, end, clock)
    requires Timed(more, now) && (forall i :: 0 <= i < |more| ==> clock <= more[i].now && Spares(more[i], a)) && clock <= now
    ensures Stands(c, Exec(c, ops + more).rows, a, plan, end, now)
  {
    if more == [] {
      assert ops + more == ops;
      Later(c, Exec(c, ops).rows, a, plan, end, clock, now);
    } else {
      var last := Last(more);
      Snoc(ops, more);
      RunStands(c, ops, Init(more), a, plan, end, clock, last.now);
      StepStands(c, Exec(c, ops + Init(more)), last, a, plan, end, last.now);
      Later(c, Exec(c, ops + more).rows, a, plan, end, last.now, now);
    }
  }

  lemma Later(c: Catalog, rows: Rows, a: Account, plan: string, end: int, clock: int, now: int)
    requires c.Valid() && Stands(c, rows, a, plan, end, clock) && clock <= now
    ensures Stands(c, rows, a, plan, end, now)
  {
  }

  /**
   Whatever else is called - guards, reports, further trial requests, any call on other accounts - a started
   trial keeps plan, limits and end until its last day is over, and from then on the account is on the free plan.
   */
  lemma {:induction false} TrialFallsBack(c: Catalog, before: seq<Call>, start: Call, more: seq<Call>, later: int)
    requires c.Valid() && Starts(c, Exec(c, before).rows, start, Target(start))
    requires Timed(more, later) && start.now <= later
    requires forall i :: 0 <= i < |more| ==> start.now <= more[i].now && Spares(more[i], Target(start))
    ensures var s := EnsuredRow(c, Exec(c, before + [start] + more).rows, Target(start), later);
      if later < TrialEnd(start) then TrialRow(c, s, TrialPlan(c, start.plan), TrialEnd(start)) else FreeRow(c, s)
  {
    var ops, a, plan, end := before + [start], Target(start), TrialPlan(c, start.plan), TrialEnd(start);
    Snoc(before, [start]);
    StartStands(c, Exec(c, before), start);
    RunStands(c, ops, more, a, plan, end, start.now, later);
    RolledTrial(c, Exec(c, ops + more).rows, a, plan, end, later, later);
  }

  // ----- an event that extends a trial -----

  lemma CommonTexts(text: string, fallback: string)
    requires text in {"month", "trialing"}
    ensures SafeSlug(text, fallback) == text
  {
    PlainSlug(text, fallback);
  }

  /** Neither closes nor opens the service: an unknown action. */
  predicate Unknown(action: string) {
    SafeSlug(action, "noop") !in BLOCKING + OPENING
  }

  lemma UnknownTarget(c: Catalog, s: Subscription, action: string, plan: string)
    requires c.Valid() && Unknown(action) && s.cycle == "month"
    ensures var t := WebhookTarget(c, s, action, plan, ""); t.status == s.status && t.cycle == s.cycle
  {
    var p := SafeSlug(if plan == "" then s.plan else plan, c.defaultPlan);
    CommonTexts(s.cycle, c.defaultCycle);
    RequestedText(SafeSlug(action, "noop"), p, s.cycle, s.status);
  }

  lemma UnknownEventRow(c: Catalog, l: Ledger, event: Call, plan: string, end: int)
    requires c.Valid() && event.WebhookCall? && Unknown(event.action) && event.cycle == ""
    requires Target(event) in l.rows && TrialRow(c, l.rows[Target(event)], plan, end) && event.now < end
    ensures Target(event) in Step(c, l, event).rows
    ensures var s := Step(c, l, event).rows[Target(event)];
      OnTrial(s) && s.trialEnd == Some(end) && s.periodEnd == event.now + 30 * DAY
  {
    var a, s := Target(event), l.rows[Target(event)];
    assert EnsuredRow(c, l.rows, a, event.now) == s && EnsureAt(c, l.rows, a, event.now) == l.rows;
    UnknownTarget(c, s, event.action, event.plan);
    CommonTexts(s.cycle, c.defaultCycle);
    CommonTexts(s.status, "active");
  }

  /**
   Any unknown action, on any trial plan, restarts the period of a running trial: the trial goes on for 30 days
   from the event, past or short of the end it was given.
   */
  lemma {:induction false} UnknownEventMovesTrial(c: Catalog, before: seq<Call>, start: Call, event: Call)
    requires c.Valid() && Starts(c, Exec(c, before).rows, start, Target(start))
    requires event.WebhookCall? && Unknown(event.action) && event.cycle == ""
    requires Target(event) == Target(start) && event.now < TrialEnd(start)
    ensures var rows := Exec(c, before + [start] + [event]).rows;
      && Target(start) in rows
      && OnTrial(rows[Target(start)])
      && rows[Target(start)].trialEnd == Some(TrialEnd(start))
      && rows[Target(start)].periodEnd == event.now + 30 * DAY
      && (TrialDated(rows[Target(start)]) ==> event.now + 30 * DAY == TrialEnd(start))
  {
    var ops := before + [start];
    Snoc(before, [start]);
    Snoc(ops, [event]);
    StartStands(c, Exec(c, before), start);
    UnknownEventRow(c, Exec(c, ops), event, TrialPlan(c, start.plan), TrialEnd(start));
  }

  /** A concrete run: a one-day trial that a "noop" event turns into a month. */
  lemma {:induction false} OneDayTrialLastsAMonth(c: Catalog, user: string, tenant: string)
    requires c.Valid()
    ensures var a := AccountOf(user, tenant);
      var calls := [EnsureCall(user, tenant, 0), TrialCall(user, tenant, "pro", 1, 0), WebhookCall(user, tenant, "noop", "", "", 0)];
      a in Exec(c, calls).rows && OnTrial(EnsuredRow(c, Exec(c, calls).rows, a, 29 * DAY))
  {
    var ensure, start, event := EnsureCall(user, tenant, 0), TrialCall(user, tenant, "pro", 1, 0), WebhookCall(user, tenant, "noop", "", "", 0);
    var before := [ensure];
    assert Init(before) == [];
    assert [ensure, start, event] == before + [start] + [event];
    FirstTrial(c, Exec(c, []).rows, AccountOf(user, tenant), Again(AccountOf(user, tenant)), TrialPlan(c, "pro"));
    NoopIsUnknown("noop");
    UnknownEventMovesTrial(c, before, start, event);
  }

  lemma FirstTrial(c: Catalog, rows: Rows, a: Account, again: Account, plan: string)
    requires c.Valid() && plan in c.plans && a !in rows
    ensures TrialAt(c, EnsureAt(c, rows, a, 0), a, again, plan, 1, 0).1 == None
  {
  }

  lemma NoopIsUnknown(action: string)
    requires action == "noop"
    ensures Unknown(action)
  {
    PlainSlug(action, "noop");
  }
}
