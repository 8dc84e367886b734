/**
 What each billing call leaves in the row of its account, field by field, and what all rows of a reachable
 state have in common.
 */
module BillingRows {
  import opened Common
  import opened Slug
  import opened Billing
  import opened BillingRuns
  import opened BillingTrials

  /** Plan and cycle, with the limits that go with the plan. */
  predicate HasTerms(c: Catalog, s: Subscription, plan: string, cycle: string) {
    && plan in c.plans && s.plan == plan && s.cycle == cycle
    && s.tokenLimit == c.plans[plan].tokenLimit && s.runLimit == c.plans[plan].runLimit
  }

  /** A period that starts now and lasts 365 days for "year" and 30 days otherwise. */
  predicate PeriodFrom(s: Subscription, start: int) {
    s.periodStart == start && s.periodEnd == start + (if s.cycle == "year" then 365 * 86_400 else 30 * 86_400)
  }

  predicate NothingUsed(s: Subscription) {
    s.usedRuns == 0 && s.usedTokens == 0
  }

  predicate SameUsage(s: Subscription, t: Subscription) {
    s.usedRuns == t.usedRuns && s.usedTokens == t.usedTokens
  }

  predicate SameTrial(s: Subscription, t: Subscription) {
    s.trialUsed == t.trialUsed && s.trialStart == t.trialStart && s.trialEnd == t.trialEnd
  }

  // ----- in every reachable state -----

  /** The plan is in the catalog and the limits are its limits; the cycle is a month or a year; status texts are lower case. */
  predicate Regular(c: Catalog, s: Subscription) {
    HasTerms(c, s, s.plan, s.cycle) && s.cycle in {"month", "year"} && Lower(s.status) == s.status
  }

  ghost predicate AllRegular(c: Catalog, rows: Rows) {
    forall a :: a in rows ==> Regular(c, rows[a])
  }

  lemma PlainStatus(text: string)
    requires text in {"trialing", "active"}
    ensures Lower(text) == text
  {
    PlainText(text);
  }

  lemma SlugStatus(text: string)
    ensures Lower(SafeSlug(text, "active")) == SafeSlug(text, "active")
  {
    SlugNormalForm(text, "active");
    if SafeSlug(text, "active") == "active" {
      PlainStatus(SafeSlug(text, "active"));
    } else {
      PlainText(SafeSlug(text, "active"));
    }
  }

  lemma EnsureRegular(c: Catalog, rows: Rows, a: Account, now: int)
    requires c.Valid() && AllRegular(c, rows)
    ensures AllRegular(c, EnsureAt(c, rows, a, now)) && Regular(c, EnsuredRow(c, rows, a, now))
  {
    PlainStatus("active");
    PlainStatus("trialing");
  }

  lemma PlanRegular(c: Catalog, rows: Rows, a: Account, plan: string, cycle: string, status: string, now: int)
    requires plan in c.plans && cycle in {"month", "year"} && Lower(status) == status && AllRegular(c, rows)
    ensures AllRegular(c, PlanAt(c, rows, a, plan, cycle, status, now))
  {
  }

  lemma TrialRegular(c: Catalog, rows: Rows, a: Account, again: Account, plan: string, days: int, now: int)
    requires c.Valid() && plan in c.plans && AllRegular(c, rows)
    ensures AllRegular(c, TrialAt(c, rows, a, again, plan, days, now).0)
  {
    var found := if a in rows then rows else EnsureAt(c, rows, again, now);
    EnsureRegular(c, rows, again, now);
    if a in found {
      EnsureRegular(c, found, a, now);
      assert EnsureAt(c, found, a, now) == found[a := Rolled(c, found[a], now)];
      PlainStatus("trialing");
      assert Regular(c, Trialed(c, Rolled(c, found[a], now), plan, days, now));
    }
  }

  lemma ReportRegular(c: Catalog, l: Ledger, a: Account, again: Account, runs: int, tokens: int, now: int)
    requires c.Valid() && AllRegular(c, l.rows)
    ensures AllRegular(c, ReportAt(c, l, a, again, runs, tokens, now).0.rows)
  {
    var rows := EnsureAt(c, l.rows, again, now);
    EnsureRegular(c, l.rows, again, now);
    EnsureRegular(c, rows, a, now);
    if a in rows {
      assert Regular(c, EnsuredRow(c, rows, a, now));
      assert EnsuredRow(c, rows, a, now) == Rolled(c, rows[a], now);
    }
  }

  lemma StepRegular(c: Catalog, l: Ledger, call: Call)
    requires c.Valid() && AllRegular(c, l.rows)
    ensures AllRegular(c, Step(c, l, call).rows)
  {
    var a := Target(call);
    match call
    case EnsureCall(_, _, now) => EnsureRegular(c, l.rows, a, now);
    case GuardCall(_, _, _, _, now) => EnsureRegular(c, l.rows, a, now);
    case PlanCall(_, _, plan, cycle, status, now) =>
      SlugStatus(status);
      PlanRegular(c, l.rows, a, PlanCode(c, plan), CycleCode(c, cycle), SafeSlug(status, "active"), now);
    case WebhookCall(_, _, action, plan, cycle, now) =>
      var t := WebhookTarget(c, EnsuredRow(c, l.rows, a, now), action, plan, cycle);
      SlugStatus(t.status);
      EnsureRegular(c, l.rows, a, now);
      PlanRegular(c, EnsureAt(c, l.rows, a, now), a, PlanCode(c, t.plan), CycleCode(c, t.cycle), SafeSlug(t.status, "active"), now);
    case TrialCall(_, _, plan, days, now) => TrialRegular(c, l.rows, a, Again(a), TrialPlan(c, plan), days, now);
    case ReportCall(_, _, runs, tokens, now) => ReportRegular(c, l, a, Again(a), runs, tokens, now);
  }

  /** In every reachable state every row has a catalog plan with that plan's limits. */
  lemma {:induction false} RowsAreRegular(c: Catalog, calls: seq<Call>)
    requires c.Valid()
    ensures AllRegular(c, Exec(c, calls).rows)
  {
    if calls != [] {
      RowsAreRegular(c, Init(calls));
      StepRegular(c, Exec(c, Init(calls)), Last(calls));
    }
  }

  // ----- ensure: new accounts and rollovers -----

  /** A new account starts on the default plan and cycle with a whole period, as a trial only if that plan is free. */
  predicate NewAccount(c: Catalog, s: Subscription, now: int) {
    && HasTerms(c, s, c.defaultPlan, c.defaultCycle) && PeriodFrom(s, now) && NothingUsed(s)
    && s.status == (if c.defaultPlan == "free" then "trialing" else "active")
    && !s.trialUsed && s.trialStart == None && s.trialEnd == None && s.autoRenew
  }

  /** A row before its period end stays; later a used trial becomes the free plan, and all else starts a new period. */
  predicate RolledOver(c: Catalog, s: Subscription, after: Subscription, now: int) {
    if now < s.periodEnd then after == s
    else if s.status == "trialing" && s.trialUsed then
      && HasTerms(c, after, "free", "month") && after.status == "active" && PeriodFrom(after, now) && NothingUsed(after)
      && after.trialUsed && after.trialStart == None && after.trialEnd == None && after.autoRenew == s.autoRenew
    else
      && HasTerms(c, after, s.plan, s.cycle) && after.status == s.status && PeriodFrom(after, now) && NothingUsed(after)
      && SameTrial(s, after) && after.autoRenew == s.autoRenew
  }

  lemma EnsureLaw(c: Catalog, calls: seq<Call>, call: Call)
    requires c.Valid() && (call.EnsureCall? || call.GuardCall?)
    ensures var before, after, a := Exec(c, calls).rows, Exec(c, calls + [call]).rows, Target(call);
      && a in after
      && (a !in before ==> NewAccount(c, after[a], call.now))
      && (a in before ==> RolledOver(c, before[a], after[a], call.now))
  {
    Snoc(calls, [call]);
    assert Init([call]) == [] && calls + [] == calls;
    RowsAreRegular(c, calls);
    EnsuredRowLaw(c, Exec(c, calls).rows, Target(call), call.now);
  }

  lemma EnsuredRowLaw(c: Catalog, rows: Rows, a: Account, now: int)
    requires c.Valid() && AllRegular(c, rows)
    ensures a !in rows ==> NewAccount(c, EnsuredRow(c, rows, a, now), now)
    ensures a in rows ==> RolledOver(c, rows[a], EnsuredRow(c, rows, a, now), now)
  {
    if a in rows {
      assert Regular(c, rows[a]);
    }
  }

  // ----- plan calls and provider events -----

  /** A text names a plan if its slug is in the catalog; any other text stands for the default plan. */
  predicate NamesPlan(c: Catalog, text: string, plan: string) {
    var slug := SafeSlug(text, c.defaultPlan);
    (slug in c.plans ==> plan == slug) && (slug !in c.plans ==> plan == c.defaultPlan)
  }

  predicate NamesCycle(c: Catalog, text: string, cycle: string) {
    var slug := SafeSlug(text, c.defaultCycle);
    (slug in {"month", "year"} ==> cycle == slug) && (slug !in {"month", "year"} ==> cycle == c.defaultCycle)
  }

  /** What a plan change leaves alone. Trial dates go unless the status stays "trialing". */
  predicate Carried(s: Subscription, after: Subscription) {
    && SameUsage(s, after) && after.trialUsed == s.trialUsed && after.autoRenew == s.autoRenew
    && (if after.status == "trialing" then SameTrial(s, after) else after.trialStart == None && after.trialEnd == None)
  }

  lemma PlanLaw(c: Catalog, calls: seq<Call>, call: Call)
    requires c.Valid() && call.PlanCall?
    ensures var before, after, a := Exec(c, calls).rows, Exec(c, calls + [call]).rows, Target(call);
      && a in after && NamesPlan(c, call.plan, after[a].plan) && NamesCycle(c, call.cycle, after[a].cycle)
      && HasTerms(c, after[a], after[a].plan, after[a].cycle) && PeriodFrom(after[a], call.now)
      && after[a].status == SafeSlug(call.status, "active")
      && (a in before ==> Carried(before[a], after[a]))
      && (a !in before ==> NothingUsed(after[a]) && !after[a].trialUsed && after[a].trialStart == None && after[a].autoRenew)
  {
    Snoc(calls, [call]);
    assert Init([call]) == [] && calls + [] == calls;
  }

  /** The plan an event leaves: the one it is named after, else the one of its plan text, else the one before. */
  predicate EventPlan(c: Catalog, code: string, text: string, before: string, plan: string) {
    match code
    case "upgrade_pro" => plan == "pro"
    case "upgrade_enterprise" => plan == "enterprise"
    case "upgrade_free" => plan == "free"
    case "downgrade_free" => plan == "free"
    case _ => if text == "" then plan == before else NamesPlanTwice(c, text, plan)
  }

  /** The service normalises the text of an event once more on its way; only an id cut on an underscore notices. */
  predicate NamesPlanTwice(c: Catalog, text: string, plan: string) {
    NamesPlan(c, SafeSlug(text, c.defaultPlan), plan) && (SafeSlug(text, c.defaultPlan) in c.plans ==> plan == SafeSlug(text, c.defaultPlan))
  }

  lemma CatalogSlug(text: string, fallback: string)
    requires text in {"free", "pro", "enterprise"}
    ensures SafeSlug(text, fallback) == text
  {
    PlainSlug(text, fallback);
  }

  lemma CycleSlug(text: string, fallback: string)
    requires text in {"month", "year"}
    ensures SafeSlug(text, fallback) == text
  {
    PlainSlug(text, fallback);
  }

  lemma RequestedPlan(code: string, p: string, cy: string, status: string)
    ensures var r := Requested(code, p, cy, status);
      && r.cycle == cy
      && match code
         case "upgrade_pro" => r.plan == "pro"
         case "upgrade_enterprise" => r.plan == "enterprise"
         case "upgrade_free" => r.plan == "free"
         case "downgrade_free" => r.plan == "free"
         case _ => r.plan == p
  {
  }

  lemma CodeOf(c: Catalog, plan: string)
    requires c.Valid() && plan in c.plans
    ensures PlanCode(c, plan) == plan
  {
    CatalogSlug(plan, c.defaultPlan);
  }

  lemma PlanAsked(c: Catalog, text: string, before: string, plan: string)
    requires c.Valid() && before in c.plans
    requires plan == PlanCode(c, SafeSlug(if text == "" then before else text, c.defaultPlan))
    ensures if text == "" then plan == before else NamesPlanTwice(c, text, plan)
  {
    var slug := SafeSlug(if text == "" then before else text, c.defaultPlan);
    if text == "" {
      CatalogSlug(before, c.defaultPlan);
    }
    if slug in c.plans {
      CodeOf(c, slug);
    }
  }

  lemma PlanEffect(c: Catalog, code: string, text: string, before: string, cy: string, status: string)
    requires c.Valid() && before in c.plans
    ensures var p := SafeSlug(if text == "" then before else text, c.defaultPlan);
      EventPlan(c, code, text, before, PlanCode(c, Requested(code, p, cy, status).plan))
  {
    var p := SafeSlug(if text == "" then before else text, c.defaultPlan);
    RequestedPlan(code, p, cy, status);
    PlanAsked(c, text, before, PlanCode(c, p));
    CodeOf(c, "pro");
    CodeOf(c, "enterprise");
    CodeOf(c, "free");
  }

  lemma EventTerms(c: Catalog, s: Subscription, action: string, plan: string, cycle: string)
    requires c.Valid() && Regular(c, s)
    ensures var t := WebhookTarget(c, s, action, plan, cycle);
      && EventPlan(c, SafeSlug(action, "noop"), plan, s.plan, PlanCode(c, t.plan))
      && (cycle == "" ==> CycleCode(c, t.cycle) == s.cycle)
      && (cycle != "" ==> NamesCycle(c, SafeSlug(cycle, c.defaultCycle), CycleCode(c, t.cycle)))
  {
    var p := SafeSlug(if plan == "" then s.plan else plan, c.defaultPlan);
    var cy := SafeSlug(if cycle == "" then s.cycle else cycle, c.defaultCycle);
    PlanEffect(c, SafeSlug(action, "noop"), plan, s.plan, cy, s.status);
    RequestedPlan(SafeSlug(action, "noop"), p, cy, s.status);
    CycleSlug(s.cycle, c.defaultCycle);
  }

  /** In every run an event leaves the plan it asks for with that plan's limits, a period from now, and the usage as it was. */
  lemma EventLaw(c: Catalog, calls: seq<Call>, call: Call)
    requires c.Valid() && call.WebhookCall?
    ensures var ensured := Exec(c, calls + [EnsureCall(call.user, call.tenant, call.now)]).rows;
      var after, a := Exec(c, calls + [call]).rows, Target(call);
      && a in ensured && a in after
      && EventPlan(c, SafeSlug(call.action, "noop"), call.plan, ensured[a].plan, after[a].plan)
      && (call.cycle == "" ==> after[a].cycle == ensured[a].cycle)
      && (call.cycle != "" ==> NamesCycle(c, SafeSlug(call.cycle, c.defaultCycle), after[a].cycle))
      && HasTerms(c, after[a], after[a].plan, after[a].cycle) && PeriodFrom(after[a], call.now)
      && Carried(ensured[a], after[a])
  {
    var ensure, rows, a := EnsureCall(call.user, call.tenant, call.now), Exec(c, calls).rows, Target(call);
    Snoc(calls, [call]);
    Snoc(calls, [ensure]);
    assert Init([call]) == [] && Init([ensure]) == [] && calls + [] == calls;
    RowsAreRegular(c, calls);
    EnsureRegular(c, rows, a, call.now);
    EventTerms(c, EnsuredRow(c, rows, a, call.now), call.action, call.plan, call.cycle);
  }

  // ----- trial starts and reports -----

  /** A text names a paid plan of the catalog, or stands for "pro". */
  predicate NamesTrialPlan(c: Catalog, text: string, plan: string) {
    var slug := SafeSlug(text, "pro");
    (slug in c.plans && slug != "free" ==> plan == slug) && (slug !in c.plans || slug == "free" ==> plan == "pro")
  }

  lemma StartLaw(c: Catalog, calls: seq<Call>, call: Call)
    requires c.Valid() && Starts(c, Exec(c, calls).rows, call, Target(call))
    ensures var after, a := Exec(c, calls + [call]).rows, Target(call);
      && a in after && NamesTrialPlan(c, call.plan, after[a].plan) && HasTerms(c, after[a], after[a].plan, "month")
      && after[a].status == "trialing" && after[a].trialUsed && !after[a].autoRenew && NothingUsed(after[a])
      && after[a].periodStart == call.now && after[a].trialStart == Some(call.now) && after[a].trialEnd == Some(after[a].periodEnd)
      && after[a].periodEnd == call.now + 86_400 * (if call.days < 1 then 1 else if call.days > 60 then 60 else call.days)
  {
    Snoc(calls, [call]);
    assert Init([call]) == [] && calls + [] == calls;
    StartedRow(c, Exec(c, calls).rows, Target(call), Again(Target(call)), TrialPlan(c, call.plan), call.days, call.now);
  }

  lemma StartedRow(c: Catalog, rows: Rows, a: Account, again: Account, plan: string, days: int, now: int)
    requires c.Valid() && plan in c.plans && TrialAt(c, rows, a, again, plan, days, now).1 == None
    ensures var after := TrialAt(c, rows, a, again, plan, days, now).0;
      && a in after && HasTerms(c, after[a], plan, "month")
      && after[a].status == "trialing" && after[a].trialUsed && !after[a].autoRenew && NothingUsed(after[a])
      && after[a].periodStart == now && after[a].trialStart == Some(now) && after[a].trialEnd == Some(after[a].periodEnd)
      && after[a].periodEnd == now + TrialDays(days) * DAY
  {
  }

  /** A report on an account with a row adds its positive amounts to the ensured row, and one entry to the ledger. */
  lemma ReportLaw(c: Catalog, calls: seq<Call>, call: Call)
    requires c.Valid() && call.ReportCall? && Target(call) in Exec(c, calls).rows
    ensures var ensured := Exec(c, calls + [EnsureCall(call.user, call.tenant, call.now)]);
      var after, a := Exec(c, calls + [call]), Target(call);
      var runs, tokens := if call.runs > 0 then call.runs else 0, if call.tokens > 0 then call.tokens else 0;
      && a in ensured.rows && a in after.rows
      && after.rows[a] == ensured.rows[a].(usedRuns := ensured.rows[a].usedRuns + runs, usedTokens := ensured.rows[a].usedTokens + tokens)
      && after.events == ensured.events + [UsageEvent(a, runs, tokens)]
  {
    var ensure, l, a := EnsureCall(call.user, call.tenant, call.now), Exec(c, calls), Target(call);
    Snoc(calls, [call]);
    Snoc(calls, [ensure]);
    assert Init([call]) == [] && Init([ensure]) == [] && calls + [] == calls;
    assert Exec(c, calls + [ensure]).rows == EnsureAt(c, l.rows, a, call.now);
    assert Exec(c, calls + [call]) == ReportAt(c, l, a, Again(a), call.runs, call.tokens, call.now).0;
    ReportedRow(c, l, a, Again(a), call.runs, call.tokens, call.now);
  }

  lemma ReportedRow(c: Catalog, l: Ledger, a: Account, again: Account, runs: int, tokens: int, now: int)
    requires c.Valid() && a in l.rows
    ensures var after := ReportAt(c, l, a, again, runs, tokens, now).0;
      && a in after.rows && after.rows[a] == Used(EnsuredRow(c, l.rows, a, now), runs, tokens)
      && after.events == l.events + [UsageEvent(a, Max(0, runs), Max(0, tokens))]
  {
  }
}
