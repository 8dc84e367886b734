/**
 The subscription table and the usage ledger of the billing service. One row per user and tenant; each
 public function is one step. Times are integers in seconds; a call reads the clock once.
 */
module Billing {
  import opened Common
  import opened Slug

  const DAY := 86_400

  datatype Plan = Plan(tokenLimit: int, runLimit: int)

  /** The configured plans and defaults. */
  datatype Catalog = Catalog(plans: map<string, Plan>, defaultPlan: string, defaultCycle: string) {
    ghost predicate Valid() {
      plans.Keys == {"free", "pro", "enterprise"} && defaultPlan in plans && defaultCycle in {"month", "year"}
    }
  }

  datatype Account = Account(user: string, tenant: string)

  datatype Subscription = Subscription(
    plan: string, cycle: string, status: string, tokenLimit: int, runLimit: int, usedTokens: int, usedRuns: int,
    autoRenew: bool, trialUsed: bool, periodStart: int, periodEnd: int, trialStart: Option<int>, trialEnd: Option<int>)

  datatype UsageEvent = UsageEvent(account: Account, runs: int, tokens: int)

  type Rows = map<Account, Subscription>

  datatype Ledger = Ledger(rows: Rows, events: seq<UsageEvent>)

  const EMPTY := Ledger(map[], [])

  datatype Error = SubscriptionNotFound | TrialAlreadyUsed

  function AccountOf(user: string, tenant: string): Account {
    Account(SafeSlug(user, "user"), SafeSlug(tenant, "tenant_main"))
  }

  function PeriodEnd(cycle: string, now: int): int {
    now + (if cycle == "year" then 365 else 30) * DAY
  }

  predicate Expired(s: Subscription, now: int) {
    s.periodEnd <= now
  }

  /** _reset_if_period_expired: a used trial falls back to the free plan, everything else starts a new period. */
  function Rolled(c: Catalog, s: Subscription, now: int): Subscription
    requires c.Valid()
  {
    if !Expired(s, now) then s
    else if Lower(s.status) == "trialing" && s.trialUsed then
      s.(plan := "free", cycle := "month", status := "active", tokenLimit := c.plans["free"].tokenLimit,
         runLimit := c.plans["free"].runLimit, periodStart := now, periodEnd := PeriodEnd("month", now),
         trialStart := None, trialEnd := None, usedRuns := 0, usedTokens := 0)
    else s.(periodStart := now, periodEnd := PeriodEnd(s.cycle, now), usedRuns := 0, usedTokens := 0)
  }

  function DefaultSubscription(c: Catalog, now: int): Subscription
    requires c.Valid()
  {
    var p := c.plans[c.defaultPlan];
    Subscription(c.defaultPlan, c.defaultCycle, if c.defaultPlan == "free" then "trialing" else "active",
                 p.tokenLimit, p.runLimit, 0, 0, true, false, now, PeriodEnd(c.defaultCycle, now), None, None)
  }

  function EnsuredRow(c: Catalog, rows: Rows, a: Account, now: int): Subscription
    requires c.Valid()
  {
    if a in rows then Rolled(c, rows[a], now) else DefaultSubscription(c, now)
  }

  function EnsureAt(c: Catalog, rows: Rows, a: Account, now: int): Rows
    requires c.Valid()
  {
    rows[a := EnsuredRow(c, rows, a, now)]
  }

  // ----- plan changes -----

  function PlanCode(c: Catalog, text: string): (p: string)
    requires c.Valid()
    ensures p in c.plans
  {
    var desired := SafeSlug(text, c.defaultPlan);
    if desired in c.plans then desired else c.defaultPlan
  }

  function CycleCode(c: Catalog, text: string): (cycle: string)
    requires c.Valid()
    ensures cycle in {"month", "year"}
  {
    var desired := SafeSlug(text, c.defaultCycle);
    if desired in {"month", "year"} then desired else c.defaultCycle
  }

  /** The row after a plan change: a new period starts, usage stays. */
  function Replanned(c: Catalog, s: Subscription, plan: string, cycle: string, status: string, now: int): Subscription
    requires plan in c.plans
  {
    s.(plan := plan, cycle := cycle, status := status,
       tokenLimit := c.plans[plan].tokenLimit, runLimit := c.plans[plan].runLimit,
       periodStart := now, periodEnd := PeriodEnd(cycle, now),
       trialStart := if status != "trialing" then None else s.trialStart,
       trialEnd := if status != "trialing" then None else s.trialEnd)
  }

  const BLANK := Subscription("", "", "", 0, 0, 0, 0, true, false, 0, 0, None, None)

  /** A plan change on an account; a missing row is created with no usage. */
  function PlanAt(c: Catalog, rows: Rows, a: Account, plan: string, cycle: string, status: string, now: int): Rows
    requires plan in c.plans
  {
    rows[a := Replanned(c, if a in rows then rows[a] else BLANK, plan, cycle, status, now)]
  }

  function UpsertPlan(c: Catalog, rows: Rows, user: string, tenant: string, plan: string, cycle: string, status: string, now: int): Rows
    requires c.Valid()
  {
    PlanAt(c, rows, AccountOf(user, tenant), PlanCode(c, plan), CycleCode(c, cycle), SafeSlug(status, "active"), now)
  }

  datatype WebhookPlan = WebhookPlan(plan: string, cycle: string, status: string)

  /** What a provider event asks for, given the row it finds; empty plan and cycle texts mean "as before". */
  function WebhookTarget(c: Catalog, s: Subscription, action: string, plan: string, cycle: string): WebhookPlan
    requires c.Valid()
  {
    var p := SafeSlug(if plan == "" then s.plan else plan, c.defaultPlan);
    var cy := SafeSlug(if cycle == "" then s.cycle else cycle, c.defaultCycle);
    Requested(SafeSlug(action, "noop"), p, cy, s.status)
  }

  function Requested(action: string, p: string, cy: string, status: string): WebhookPlan {
    match action
    case "payment_succeeded" => WebhookPlan(p, cy, "active")
    case "activate" => WebhookPlan(p, cy, "active")
    case "payment_failed" => WebhookPlan(p, cy, "past_due")
    case "past_due" => WebhookPlan(p, cy, "past_due")
    case "cancel" => WebhookPlan(p, cy, "canceled")
    case "canceled" => WebhookPlan(p, cy, "canceled")
    case "resume" => WebhookPlan(p, cy, "active")
    case "downgrade_free" => WebhookPlan("free", cy, "active")
    case "upgrade_pro" => WebhookPlan("pro", cy, "active")
    case "upgrade_enterprise" => WebhookPlan("enterprise", cy, "active")
    case "upgrade_free" => WebhookPlan("free", cy, "active")
    case _ => WebhookPlan(p, cy, status)
  }

  function Webhook(c: Catalog, rows: Rows, user: string, tenant: string, action: string, plan: string, cycle: string, now: int): Rows
    requires c.Valid()
  {
    var a := AccountOf(user, tenant);
    var target := WebhookTarget(c, EnsuredRow(c, rows, a, now), action, plan, cycle);
    UpsertPlan(c, EnsureAt(c, rows, a, now), user, tenant, target.plan, target.cycle, target.status, now)
  }

  // ----- trials -----

  function TrialPlan(c: Catalog, text: string): (p: string)
    requires c.Valid()
    ensures p in c.plans && p != "free"
  {
    var desired := SafeSlug(text, "pro");
    if desired !in c.plans || desired == "free" then "pro" else desired
  }

  function TrialDays(days: int): (d: int)
    ensures 1 <= d <= 60
    ensures (1 <= days <= 60 ==> d == days) && (days < 1 ==> d == 1) && (days > 60 ==> d == 60)
  {
    Max(1, Min(days, 60))
  }

  function Trialed(c: Catalog, s: Subscription, plan: string, days: int, now: int): Subscription
    requires plan in c.plans
  {
    var end := now + TrialDays(days) * DAY;
    s.(plan := plan, cycle := "month", status := "trialing",
       tokenLimit := c.plans[plan].tokenLimit, runLimit := c.plans[plan].runLimit,
       usedRuns := 0, usedTokens := 0, autoRenew := false, trialUsed := true, trialStart := Some(now), trialEnd := Some(end),
       periodStart := now, periodEnd := end)
  }

  /** The account that the services address when they hand normalised ids to ensure_subscription once more. */
  function Again(a: Account): Account {
    AccountOf(a.user, a.tenant)
  }

  function TrialAt(c: Catalog, rows: Rows, a: Account, again: Account, plan: string, days: int, now: int): (Rows, Option<Error>)
    requires c.Valid() && plan in c.plans
  {
    var found := if a in rows then rows else EnsureAt(c, rows, again, now);
    if a !in found then (found, Some(SubscriptionNotFound))
    else if Rolled(c, found[a], now).trialUsed then (found[a := Rolled(c, found[a], now)], Some(TrialAlreadyUsed))
    else (found[a := Trialed(c, Rolled(c, found[a], now), plan, days, now)], None)
  }

  function ActivateTrial(c: Catalog, rows: Rows, user: string, tenant: string, plan: string, days: int, now: int): (Rows, Option<Error>)
    requires c.Valid()
  {
    var a := AccountOf(user, tenant);
    TrialAt(c, rows, a, Again(a), TrialPlan(c, plan), days, now)
  }

  // ----- quota guard and usage -----

  /** Whether the service runs at all for this status. */
  predicate Open(s: Subscription) {
    Lower(s.status) in {"active", "trialing"}
  }

  /** A limit that is not positive means no limit. */
  predicate RunsWithin(s: Subscription) {
    s.runLimit > 0 ==> s.usedRuns <= s.runLimit
  }

  predicate TokensWithin(s: Subscription) {
    s.tokenLimit > 0 ==> s.usedTokens <= s.tokenLimit
  }

  predicate Within(s: Subscription) {
    RunsWithin(s) && TokensWithin(s)
  }

  datatype Decision = Allowed | Inactive | RunQuotaExceeded | TokenQuotaExceeded

  function Guard(s: Subscription, estimatedRuns: int, estimatedTokens: int): Decision {
    if Lower(s.status) !in {"active", "trialing"} then Inactive
    else if s.runLimit > 0 && s.usedRuns + Max(0, estimatedRuns) > s.runLimit then RunQuotaExceeded
    else if s.tokenLimit > 0 && s.usedTokens + Max(0, estimatedTokens) > s.tokenLimit then TokenQuotaExceeded
    else Allowed
  }

  function Used(s: Subscription, runs: int, tokens: int): Subscription {
    s.(usedRuns := s.usedRuns + Max(0, runs), usedTokens := s.usedTokens + Max(0, tokens))
  }

  function ReportAt(c: Catalog, l: Ledger, a: Account, again: Account, runs: int, tokens: int, now: int): (Ledger, Option<Error>)
    requires c.Valid()
  {
    var rows := EnsureAt(c, l.rows, again, now);
    if a !in rows then (Ledger(rows, l.events), Some(SubscriptionNotFound))
    else (Ledger(rows[a := Used(Rolled(c, rows[a], now), runs, tokens)],
                 l.events + [UsageEvent(a, Max(0, runs), Max(0, tokens))]), None)
  }

  function ReportUsage(c: Catalog, l: Ledger, user: string, tenant: string, runs: int, tokens: int, now: int): (Ledger, Option<Error>)
    requires c.Valid()
  {
    var a := AccountOf(user, tenant);
    ReportAt(c, l, a, Again(a), runs, tokens, now)
  }

  /** The service over its two tables; a row is a value that each method rewrites field by field. */
  class BillingService {
    const catalog: Catalog
    var rows: Rows
    var events: seq<UsageEvent>

    ghost function Contents(): Ledger
      reads this
    {
      Ledger(rows, events)
    }

    constructor (catalog: Catalog)
      ensures this.catalog == catalog && Contents() == EMPTY
    {
      this.catalog := catalog;
      rows, events := map[], [];
    }

    method ResetIfPeriodExpired(a: Account, now: int)
      requires catalog.Valid() && a in rows
      modifies this`rows
      ensures rows == old(rows)[a := Rolled(catalog, old(rows)[a], now)]
    {
      var s := rows[a];
      if s.periodEnd > now {
        return;
      }
      if Lower(s.status) == "trialing" && s.trialUsed {
        var free := catalog.plans["free"];
        s := s.(plan := "free", cycle := "month", status := "active");
        s := s.(tokenLimit := free.tokenLimit, runLimit := free.runLimit);
        s := s.(periodStart := now, periodEnd := PeriodEnd("month", now));
        s := s.(trialStart := None, trialEnd := None, usedRuns := 0, usedTokens := 0);
        rows := rows[a := s];
        return;
      }
      s := s.(periodStart := now, periodEnd := PeriodEnd(s.cycle, now));
      s := s.(usedRuns := 0, usedTokens := 0);
      rows := rows[a := s];
    }

    method EnsureSubscription(user: string, tenant: string, now: int) returns (s: Subscription)
      requires catalog.Valid()
      modifies this`rows
      ensures rows == EnsureAt(catalog, old(rows), AccountOf(user, tenant), now)
      ensures s == EnsuredRow(catalog, old(rows), AccountOf(user, tenant), now)
    {
      s := EnsureAccount(AccountOf(user, tenant), now);
    }

    method EnsureAccount(a: Account, now: int) returns (s: Subscription)
      requires catalog.Valid()
      modifies this`rows
      ensures rows == EnsureAt(catalog, old(rows), a, now)
      ensures s == EnsuredRow(catalog, old(rows), a, now)
    {
      if a !in rows {
        rows := rows[a := DefaultSubscription(catalog, now)];
      } else {
        ResetIfPeriodExpired(a, now);
      }
      s := rows[a];
    }

    method UpsertSubscriptionPlan(user: string, tenant: string, plan: string, cycle: string, status: string, now: int)
      requires catalog.Valid()
      modifies this`rows
      ensures rows == UpsertPlan(catalog, old(rows), user, tenant, plan, cycle, status, now)
    {
      ChangePlan(AccountOf(user, tenant), PlanCode(catalog, plan), CycleCode(catalog, cycle), SafeSlug(status, "active"), now);
    }

    method ChangePlan(a: Account, plan: string, cycle: string, status: string, now: int)
      requires plan in catalog.plans
      modifies this`rows
      ensures rows == PlanAt(catalog, old(rows), a, plan, cycle, status, now)
    {
      var terms := catalog.plans[plan];
      if a !in rows {
        rows := rows[a := Subscription(plan, cycle, status, terms.tokenLimit, terms.runLimit, 0, 0, true, false,
                                       now, PeriodEnd(cycle, now), None, None)];
      } else {
        var s := rows[a].(plan := plan, cycle := cycle, status := status, tokenLimit := terms.tokenLimit, runLimit := terms.runLimit);
        s := s.(periodStart := now, periodEnd := PeriodEnd(cycle, now));
        if status != "trialing" {
          s := s.(trialStart := None, trialEnd := None);
        }
        rows := rows[a := s];
      }
    }

    method ApplyWebhook(user: string, tenant: string, action: string, plan: string, cycle: string, now: int)
      requires catalog.Valid()
      modifies this`rows
      ensures rows == Webhook(catalog, old(rows), user, tenant, action, plan, cycle, now)
    {
      var s := EnsureSubscription(user, tenant, now);
      var target := WebhookTarget(catalog, s, action, plan, cycle);
      UpsertSubscriptionPlan(user, tenant, target.plan, target.cycle, target.status, now);
    }

    method StartTrial(user: string, tenant: string, plan: string, days: int, now: int) returns (error: Option<Error>)
      requires catalog.Valid()
      modifies this`rows
      ensures (rows, error) == ActivateTrial(catalog, old(rows), user, tenant, plan, days, now)
    {
      var a := AccountOf(user, tenant);
      error := StartTrialAt(a, Again(a), TrialPlan(catalog, plan), days, now);
    }

    method StartTrialAt(a: Account, again: Account, plan: string, days: int, now: int) returns (error: Option<Error>)
      requires catalog.Valid() && plan in catalog.plans
      modifies this`rows
      ensures (rows, error) == TrialAt(catalog, old(rows), a, again, plan, days, now)
    {
      if a !in rows {
        var _ := EnsureAccount(again, now);
      }
      if a !in rows {
        return Some(SubscriptionNotFound);
      }
      ghost var found := rows;
      ResetIfPeriodExpired(a, now);
      var s := rows[a];
      if s.trialUsed {
        return Some(TrialAlreadyUsed);
      }
      var terms, end := catalog.plans[plan], now + TrialDays(days) * DAY;
      s := s.(plan := plan, cycle := "month", status := "trialing", tokenLimit := terms.tokenLimit, runLimit := terms.runLimit);
      s := s.(usedRuns := 0, usedTokens := 0, autoRenew := false, trialUsed := true);
      s := s.(trialStart := Some(now), trialEnd := Some(end), periodStart := now, periodEnd := end);
      rows := rows[a := s];
      assert rows == found[a := s];
      return None;
    }

    method EvaluateGuard(user: string, tenant: string, estimatedRuns: int, estimatedTokens: int, now: int) returns (d: Decision)
      requires catalog.Valid()
      modifies this`rows
      ensures rows == EnsureAt(catalog, old(rows), AccountOf(user, tenant), now)
      ensures d == Guard(rows[AccountOf(user, tenant)], estimatedRuns, estimatedTokens)
      ensures var s := rows[AccountOf(user, tenant)];
        && (d == Allowed <==> Open(s) && Within(Used(s, estimatedRuns, estimatedTokens)))
        && (d == Inactive <==> !Open(s))
    {
      var s := EnsureSubscription(user, tenant, now);
      if Lower(s.status) !in {"active", "trialing"} {
        return Inactive;
      }
      var safeRuns, safeTokens := Max(0, estimatedRuns), Max(0, estimatedTokens);
      if s.runLimit > 0 && s.usedRuns + safeRuns > s.runLimit {
        return RunQuotaExceeded;
      }
      if s.tokenLimit > 0 && s.usedTokens + safeTokens > s.tokenLimit {
        return TokenQuotaExceeded;
      }
      return Allowed;
    }

    method Report(user: string, tenant: string, runs: int, tokens: int, now: int) returns (error: Option<Error>)
      requires catalog.Valid()
      modifies this
      ensures (Contents(), error) == ReportUsage(catalog, old(Contents()), user, tenant, runs, tokens, now)
    {
      var a := AccountOf(user, tenant);
      error := ReportOn(a, Again(a), runs, tokens, now);
    }

    method ReportOn(a: Account, again: Account, runs: int, tokens: int, now: int) returns (error: Option<Error>)
      requires catalog.Valid()
      modifies this
      ensures (Contents(), error) == ReportAt(catalog, old(Contents()), a, again, runs, tokens, now)
    {
      var safeRuns, safeTokens := Max(0, runs), Max(0, tokens);
      var _ := EnsureAccount(again, now);
      if a !in rows {
        return Some(SubscriptionNotFound);
      }
      ghost var found := rows;
      ResetIfPeriodExpired(a, now);
      var s := rows[a];
      s := s.(usedRuns := s.usedRuns + safeRuns, usedTokens := s.usedTokens + safeTokens);
      rows := rows[a := s];
      assert rows == found[a := s];
      events := events + [UsageEvent(a, safeRuns, safeTokens)];
      return None;
    }
  }
}
