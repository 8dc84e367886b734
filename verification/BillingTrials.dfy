/** How long a trial can last, and how often an account can have one. */
module BillingTrials {
  import opened Common
  import opened Slug
  import opened Billing
  import opened BillingRuns

  predicate OnTrial(s: Subscription) {
    s.status == "trialing" && s.trialUsed
  }

  /**
   A running trial has its dates: it ends with the period, between 1 and 60 days after it began. A row that is
   not on a running trial has no trial start.
   */
  predicate TrialDated(s: Subscription) {
    if OnTrial(s) then
      && s.trialStart.Some? && s.trialEnd == Some(s.periodEnd)
      && s.trialStart.value + DAY <= s.periodEnd <= s.trialStart.value + 60 * DAY
    else s.trialStart == None
  }

  /** A plan change that sets "trialing" on a used trial needs a running one, and the period end it has already. */
  predicate KeepsTrial(s: Subscription, cycle: string, status: string, now: int) {
    status == "trialing" && s.trialUsed ==> OnTrial(s) && PeriodEnd(cycle, now) == s.periodEnd
  }

  lemma LowerTrialing()
    ensures Lower("trialing") == "trialing" && Lower("active") == "active"
  {
    assert Lower("trialing") == "trialing";
    assert Lower("active") == "active";
  }

  lemma RolledDated(c: Catalog, s: Subscription, now: int)
    requires c.Valid() && TrialDated(s)
    ensures TrialDated(Rolled(c, s, now))
  {
    LowerTrialing();
  }

  // ----- over runs of calls -----

  ghost predicate AllDated(rows: Rows) {
    forall a :: a in rows ==> TrialDated(rows[a])
  }

  lemma WriteDated(rows: Rows, a: Account, s: Subscription)
    requires AllDated(rows)
    ensures AllDated(rows[a := s]) <==> TrialDated(s)
  {
    assert a in rows[a := s];
  }

  lemma EnsureDated(c: Catalog, rows: Rows, a: Account, now: int)
    requires c.Valid() && AllDated(rows)
    ensures TrialDated(EnsuredRow(c, rows, a, now)) && AllDated(EnsureAt(c, rows, a, now))
  {
    if a in rows {
      RolledDated(c, rows[a], now);
    }
    WriteDated(rows, a, EnsuredRow(c, rows, a, now));
  }

  lemma PlanDated(c: Catalog, rows: Rows, a: Account, plan: string, cycle: string, status: string, now: int)
    requires plan in c.plans && AllDated(rows)
    ensures AllDated(PlanAt(c, rows, a, plan, cycle, status, now)) <==>
            (a in rows ==> KeepsTrial(rows[a], cycle, status, now))
  {
    WriteDated(rows, a, Replanned(c, if a in rows then rows[a] else BLANK, plan, cycle, status, now));
  }

  lemma TrialAtDated(c: Catalog, rows: Rows, a: Account, again: Account, plan: string, days: int, now: int)
    requires c.Valid() && plan in c.plans && AllDated(rows)
    ensures AllDated(TrialAt(c, rows, a, again, plan, days, now).0)
  {
    var found := if a in rows then rows else EnsureAt(c, rows, again, now);
    EnsureDated(c, rows, again, now);
    if a in found {
      var s := Rolled(c, found[a], now);
      RolledDated(c, found[a], now);
      WriteDated(found, a, if s.trialUsed then s else Trialed(c, s, plan, days, now));
    }
  }

  lemma ReportDated(c: Catalog, l: Ledger, a: Account, again: Account, runs: int, tokens: int, now: int)
    requires c.Valid() && AllDated(l.rows)
    ensures AllDated(ReportAt(c, l, a, again, runs, tokens, now).0.rows)
  {
    var rows := EnsureAt(c, l.rows, again, now);
    EnsureDated(c, l.rows, again, now);
    if a in rows {
      RolledDated(c, rows[a], now);
      WriteDated(rows, a, Used(Rolled(c, rows[a], now), runs, tokens));
    }
  }

  /** Plan calls and provider events are the only ones that have to look at a running trial. */
  predicate LeavesTrials(c: Catalog, rows: Rows, call: Call)
    requires c.Valid()
  {
    var a := Target(call);
    match call
    case PlanCall(_, _, _, cycle, status, now) => a in rows ==> KeepsTrial(rows[a], CycleCode(c, cycle), SafeSlug(status, "active"), now)
    case WebhookCall(_, _, action, plan, cycle, now) =>
      var s := EnsuredRow(c, rows, a, now);
      var t := WebhookTarget(c, s, action, plan, cycle);
      KeepsTrial(s, CycleCode(c, t.cycle), SafeSlug(t.status, "active"), now)
    case _ => true
  }

  lemma StepDated(c: Catalog, l: Ledger, call: Call)
    requires c.Valid() && AllDated(l.rows)
    ensures AllDated(Step(c, l, call).rows) <==> LeavesTrials(c, l.rows, call)
  {
    var a := Target(call);
    match call
    case EnsureCall(_, _, now) => EnsureDated(c, l.rows, a, now);
    case GuardCall(_, _, _, _, now) => EnsureDated(c, l.rows, a, now);
    case PlanCall(_, _, plan, cycle, status, now) =>
      PlanDated(c, l.rows, a, PlanCode(c, plan), CycleCode(c, cycle), SafeSlug(status, "active"), now);
    case WebhookCall(_, _, action, plan, cycle, now) =>
      var t := WebhookTarget(c, EnsuredRow(c, l.rows, a, now), action, plan, cycle);
      EnsureDated(c, l.rows, a, now);
      PlanDated(c, EnsureAt(c, l.rows, a, now), a, PlanCode(c, t.plan), CycleCode(c, t.cycle), SafeSlug(t.status, "active"), now);
    case TrialCall(_, _, plan, days, now) => TrialAtDated(c, l.rows, a, Again(a), TrialPlan(c, plan), days, now);
    case ReportCall(_, _, runs, tokens, now) => ReportDated(c, l, a, Again(a), runs, tokens, now);
  }

  ghost predicate AlwaysDated(c: Catalog, calls: seq<Call>)
    requires c.Valid()
  {
    AllDated(Exec(c, calls).rows) && (calls != [] ==> AlwaysDated(c, Init(calls)))
  }

  predicate LeavingRun(c: Catalog, calls: seq<Call>)
    requires c.Valid()
  {
    calls != [] ==> LeavingRun(c, Init(calls)) && LeavesTrials(c, Exec(c, Init(calls)).rows, Last(calls))
  }

  /**
   In all states of a run every running trial ends with its period, 1 to 60 days after it began, and no other
   row carries a trial start, exactly when no plan change revived a used trial or moved the end of a running one.
   */
  lemma {:induction false} TrialsEnd(c: Catalog, calls: seq<Call>)
    requires c.Valid()
    ensures AlwaysDated(c, calls) <==> LeavingRun(c, calls)
  {
    if calls != [] {
      TrialsEnd(c, Init(calls));
      if AlwaysDated(c, Init(calls)) {
        StepDated(c, Exec(c, Init(calls)), Last(calls));
      }
    }
  }

  // ----- one trial per account -----

  predicate UsedTrial(rows: Rows, a: Account) {
    a in rows && rows[a].trialUsed
  }

  /** The call starts a trial on the account: it asks for one and succeeds. */
  predicate Starts(c: Catalog, rows: Rows, call: Call, a: Account)
    requires c.Valid()
  {
    call.TrialCall? && Target(call) == a && ActivateTrial(c, rows, call.user, call.tenant, call.plan, call.days, call.now).1 == None
  }

  function TrialStarts(c: Catalog, calls: seq<Call>, a: Account): nat
    requires c.Valid()
  {
    if calls == [] then 0
    else TrialStarts(c, Init(calls), a) + if Starts(c, Exec(c, Init(calls)).rows, Last(calls), a) then 1 else 0
  }

  lemma TrialAtUsed(c: Catalog, rows: Rows, b: Account, again: Account, plan: string, days: int, now: int, a: Account)
    requires c.Valid() && plan in c.plans
    ensures var (after, error) := TrialAt(c, rows, b, again, plan, days, now);
      && (UsedTrial(after, a) <==> UsedTrial(rows, a) || (a == b && error == None))
      && !(UsedTrial(rows, b) && error == None)
  {
  }

  lemma ReportAtUsed(c: Catalog, l: Ledger, b: Account, again: Account, runs: int, tokens: int, now: int, a: Account)
    requires c.Valid()
    ensures UsedTrial(ReportAt(c, l, b, again, runs, tokens, now).0.rows, a) <==> UsedTrial(l.rows, a)
  {
  }

  lemma EnsureUsed(c: Catalog, rows: Rows, b: Account, now: int, a: Account)
    requires c.Valid()
    ensures UsedTrial(EnsureAt(c, rows, b, now), a) <==> UsedTrial(rows, a)
  {
  }

  lemma PlanUsed(c: Catalog, rows: Rows, b: Account, plan: string, cycle: string, status: string, now: int, a: Account)
    requires plan in c.plans
    ensures UsedTrial(PlanAt(c, rows, b, plan, cycle, status, now), a) <==> UsedTrial(rows, a)
  {
  }

  lemma StepUsed(c: Catalog, l: Ledger, call: Call, a: Account)
    requires c.Valid()
    ensures UsedTrial(Step(c, l, call).rows, a) <==> UsedTrial(l.rows, a) || Starts(c, l.rows, call, a)
    ensures !(UsedTrial(l.rows, a) && Starts(c, l.rows, call, a))
  {
    var b := Target(call);
    match call
    case EnsureCall(_, _, now) => EnsureUsed(c, l.rows, b, now, a);
    case GuardCall(_, _, _, _, now) => EnsureUsed(c, l.rows, b, now, a);
    case PlanCall(_, _, plan, cycle, status, now) =>
      PlanUsed(c, l.rows, b, PlanCode(c, plan), CycleCode(c, cycle), SafeSlug(status, "active"), now, a);
    case WebhookCall(_, _, action, plan, cycle, now) =>
      var t := WebhookTarget(c, EnsuredRow(c, l.rows, b, now), action, plan, cycle);
      EnsureUsed(c, l.rows, b, now, a);
      PlanUsed(c, EnsureAt(c, l.rows, b, now), b, PlanCode(c, t.plan), CycleCode(c, t.cycle), SafeSlug(t.status, "active"), now, a);
    case TrialCall(_, _, plan, days, now) => TrialAtUsed(c, l.rows, b, Again(b), TrialPlan(c, plan), days, now, a);
    case ReportCall(_, _, runs, tokens, now) => ReportAtUsed(c, l, b, Again(b), runs, tokens, now, a);
  }

  /** In every run an account starts at most one trial, and trial_used says whether it did. */
  lemma {:induction false} OneTrial(c: Catalog, calls: seq<Call>, a: Account)
    requires c.Valid()
    ensures TrialStarts(c, calls, a) == if UsedTrial(Exec(c, calls).rows, a) then 1 else 0
  {
    if calls != [] {
      OneTrial(c, Init(calls), a);
      StepUsed(c, Exec(c, Init(calls)), Last(calls), a);
    }
  }
}
