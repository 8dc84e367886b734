/**
 Whole runs of the billing service. A call is taken apart into the row operations it performs, once its
 texts are normalised; the balance of usage is then a property of sequences of row operations.
 */
module BillingRuns {
  import opened Common
  import opened Slug
  import opened Billing

  datatype Call =
    | EnsureCall(user: string, tenant: string, now: int)
    | PlanCall(user: string, tenant: string, plan: string, cycle: string, status: string, now: int)
    | WebhookCall(user: string, tenant: string, action: string, plan: string, cycle: string, now: int)
    | TrialCall(user: string, tenant: string, plan: string, days: int, now: int)
    | GuardCall(user: string, tenant: string, runs: int, tokens: int, now: int)
    | ReportCall(user: string, tenant: string, runs: int, tokens: int, now: int)

  /** The account a call addresses. */
  function Target(call: Call): Account {
    AccountOf(call.user, call.tenant)
  }

  function Step(c: Catalog, l: Ledger, call: Call): Ledger
    requires c.Valid()
  {
    match call
    case EnsureCall(user, tenant, now) => l.(rows := EnsureAt(c, l.rows, AccountOf(user, tenant), now))
    case GuardCall(user, tenant, _, _, now) => l.(rows := EnsureAt(c, l.rows, AccountOf(user, tenant), now))
    case PlanCall(user, tenant, plan, cycle, status, now) => l.(rows := UpsertPlan(c, l.rows, user, tenant, plan, cycle, status, now))
    case WebhookCall(user, tenant, action, plan, cycle, now) => l.(rows := Webhook(c, l.rows, user, tenant, action, plan, cycle, now))
    case TrialCall(user, tenant, plan, days, now) => l.(rows := ActivateTrial(c, l.rows, user, tenant, plan, days, now).0)
    case ReportCall(user, tenant, runs, tokens, now) => ReportUsage(c, l, user, tenant, runs, tokens, now).0
  }

  function Exec(c: Catalog, calls: seq<Call>): Ledger
    requires c.Valid()
  {
    if calls == [] then EMPTY else Step(c, Exec(c, Init(calls)), Last(calls))
  }

  // ----- row operations -----

  /** Ensure a row, change its plan, start a trial if none was used, record usage; the last two need the row. */
  datatype Act =
    | EnsureAct(b: Account, now: int)
    | PlanAct(b: Account, plan: string, cycle: string, status: string, now: int)
    | TrialAct(b: Account, plan: string, days: int, now: int)
    | UseAct(b: Account, runs: int, tokens: int, now: int)

  /** The row an operation writes; an operation that does nothing writes the row it found. */
  function NewRow(c: Catalog, rows: Rows, act: Act): Subscription
    requires c.Valid() && Applies(c, rows, act)
  {
    match act
    case EnsureAct(b, now) => EnsuredRow(c, rows, b, now)
    case PlanAct(b, plan, cycle, status, now) => Replanned(c, if b in rows then rows[b] else BLANK, plan, cycle, status, now)
    case TrialAct(b, plan, days, now) =>
      if Rolled(c, rows[b], now).trialUsed then Rolled(c, rows[b], now) else Trialed(c, Rolled(c, rows[b], now), plan, days, now)
    case UseAct(b, runs, tokens, now) => Used(Rolled(c, rows[b], now), runs, tokens)
  }

  predicate Applies(c: Catalog, rows: Rows, act: Act) {
    match act
    case EnsureAct(_, _) => true
    case PlanAct(_, plan, _, _, _) => plan in c.plans
    case TrialAct(b, plan, _, _) => b in rows && plan in c.plans
    case UseAct(b, _, _, _) => b in rows
  }

  function Perform(c: Catalog, l: Ledger, act: Act): Ledger
    requires c.Valid()
  {
    if !Applies(c, l.rows, act) then l
    else Ledger(l.rows[act.b := NewRow(c, l.rows, act)], l.events + EventsOf(act))
  }

  function EventsOf(act: Act): seq<UsageEvent> {
    if act.UseAct? then [UsageEvent(act.b, Max(0, act.runs), Max(0, act.tokens))] else []
  }

  function TrialActs(rows: Rows, b: Account, again: Account, plan: string, days: int, now: int): seq<Act> {
    if b in rows then [TrialAct(b, plan, days, now)] else [EnsureAct(again, now), TrialAct(b, plan, days, now)]
  }

  function ReportActs(b: Account, again: Account, runs: int, tokens: int, now: int): seq<Act> {
    [EnsureAct(again, now), UseAct(b, runs, tokens, now)]
  }

  function Acts(c: Catalog, rows: Rows, call: Call): seq<Act>
    requires c.Valid()
  {
    var b := AccountOf(call.user, call.tenant);
    match call
    case EnsureCall(_, _, now) => [EnsureAct(b, now)]
    case GuardCall(_, _, _, _, now) => [EnsureAct(b, now)]
    case PlanCall(_, _, plan, cycle, status, now) =>
      [PlanAct(b, PlanCode(c, plan), CycleCode(c, cycle), SafeSlug(status, "active"), now)]
    case WebhookCall(_, _, action, plan, cycle, now) =>
      var t := WebhookTarget(c, EnsuredRow(c, rows, b, now), action, plan, cycle);
      [EnsureAct(b, now), PlanAct(b, PlanCode(c, t.plan), CycleCode(c, t.cycle), SafeSlug(t.status, "active"), now)]
    case TrialCall(_, _, plan, days, now) => TrialActs(rows, b, Again(b), TrialPlan(c, plan), days, now)
    case ReportCall(_, _, runs, tokens, now) => ReportActs(b, Again(b), runs, tokens, now)
  }

  function PerformAll(c: Catalog, l: Ledger, acts: seq<Act>): Ledger
    requires c.Valid()
  {
    if acts == [] then l else Perform(c, PerformAll(c, l, Init(acts)), Last(acts))
  }

  function AllActs(c: Catalog, calls: seq<Call>): seq<Act>
    requires c.Valid()
  {
    if calls == [] then [] else AllActs(c, Init(calls)) + Acts(c, Exec(c, Init(calls)).rows, Last(calls))
  }

  lemma PerformOne(c: Catalog, l: Ledger, x: Act)
    requires c.Valid()
    ensures PerformAll(c, l, [x]) == Perform(c, l, x)
  {
    assert Init([x]) == [] && PerformAll(c, l, []) == l;
  }

  lemma PerformTwo(c: Catalog, l: Ledger, x: Act, y: Act)
    requires c.Valid()
    ensures PerformAll(c, l, [x, y]) == Perform(c, Perform(c, l, x), y)
  {
    PerformOne(c, l, x);
    assert Init([x, y]) == [x];
  }

  lemma TrialIsActs(c: Catalog, l: Ledger, b: Account, again: Account, plan: string, days: int, now: int)
    requires c.Valid() && plan in c.plans
    ensures l.(rows := TrialAt(c, l.rows, b, again, plan, days, now).0) == PerformAll(c, l, TrialActs(l.rows, b, again, plan, days, now))
  {
    if b in l.rows {
      PerformOne(c, l, TrialAct(b, plan, days, now));
    } else {
      PerformTwo(c, l, EnsureAct(again, now), TrialAct(b, plan, days, now));
    }
  }

  lemma ReportIsActs(c: Catalog, l: Ledger, b: Account, again: Account, runs: int, tokens: int, now: int)
    requires c.Valid()
    ensures ReportAt(c, l, b, again, runs, tokens, now).0 == PerformAll(c, l, ReportActs(b, again, runs, tokens, now))
  {
    PerformTwo(c, l, EnsureAct(again, now), UseAct(b, runs, tokens, now));
  }

  lemma PlanIsActs(c: Catalog, l: Ledger, b: Account, plan: string, cycle: string, status: string, now: int)
    requires c.Valid() && plan in c.plans
    ensures l.(rows := PlanAt(c, l.rows, b, plan, cycle, status, now)) == PerformAll(c, l, [PlanAct(b, plan, cycle, status, now)])
    ensures l.(rows := PlanAt(c, EnsureAt(c, l.rows, b, now), b, plan, cycle, status, now))
         == PerformAll(c, l, [EnsureAct(b, now), PlanAct(b, plan, cycle, status, now)])
  {
    PerformOne(c, l, PlanAct(b, plan, cycle, status, now));
    PerformTwo(c, l, EnsureAct(b, now), PlanAct(b, plan, cycle, status, now));
  }

  lemma StepIsActs(c: Catalog, l: Ledger, call: Call)
    requires c.Valid()
    ensures Step(c, l, call) == PerformAll(c, l, Acts(c, l.rows, call))
  {
    var b := AccountOf(call.user, call.tenant);
    match call
    case EnsureCall(_, _, now) => PerformOne(c, l, EnsureAct(b, now));
    case GuardCall(_, _, _, _, now) => PerformOne(c, l, EnsureAct(b, now));
    case PlanCall(_, _, plan, cycle, status, now) =>
      PlanIsActs(c, l, b, PlanCode(c, plan), CycleCode(c, cycle), SafeSlug(status, "active"), now);
    case WebhookCall(_, _, action, plan, cycle, now) =>
      var t := WebhookTarget(c, EnsuredRow(c, l.rows, b, now), action, plan, cycle);
      PlanIsActs(c, l, b, PlanCode(c, t.plan), CycleCode(c, t.cycle), SafeSlug(t.status, "active"), now);
    case TrialCall(_, _, plan, days, now) => TrialIsActs(c, l, b, Again(b), TrialPlan(c, plan), days, now);
    case ReportCall(_, _, runs, tokens, now) => ReportIsActs(c, l, b, Again(b), runs, tokens, now);
  }

  lemma {:induction false} PerformConcat(c: Catalog, l: Ledger, xs: seq<Act>, ys: seq<Act>)
    requires c.Valid()
    ensures PerformAll(c, l, xs + ys) == PerformAll(c, PerformAll(c, l, xs), ys)
  {
    if ys == [] {
      assert xs + ys == xs;
    } else {
      assert Init(xs + ys) == xs + Init(ys);
      PerformConcat(c, l, xs, Init(ys));
    }
  }

  /** A run of calls is the run of its row operations. */
  lemma {:induction false} ExecIsActs(c: Catalog, calls: seq<Call>)
    requires c.Valid()
    ensures Exec(c, calls) == PerformAll(c, EMPTY, AllActs(c, calls))
  {
    if calls != [] {
      var l := Exec(c, Init(calls));
      ExecIsActs(c, Init(calls));
      StepIsActs(c, l, Last(calls));
      PerformConcat(c, EMPTY, AllActs(c, Init(calls)), Acts(c, l.rows, Last(calls)));
    }
  }

  // ----- conservation -----

  datatype Meter = Runs | Tokens

  function Reading(s: Subscription, m: Meter): int {
    if m == Runs then s.usedRuns else s.usedTokens
  }

  function UsedOf(rows: Rows, a: Account, m: Meter): int {
    if a in rows then Reading(rows[a], m) else 0
  }

  function Amount(runs: int, tokens: int, m: Meter): int {
    Max(0, if m == Runs then runs else tokens)
  }

  /** The ledger's total for an account. */
  function Reported(events: seq<UsageEvent>, a: Account, m: Meter): int {
    if events == [] then 0
    else
      var e := Last(events);
      Reported(Init(events), a, m) + if e.account != a then 0 else if m == Runs then e.runs else e.tokens
  }

  /** An operation discards the counters of its row when the period is over, and when it starts a trial. Plan changes never do. */
  predicate Discards(c: Catalog, rows: Rows, act: Act) {
    && Applies(c, rows, act) && act.b in rows && !act.PlanAct?
    && (Expired(rows[act.b], act.now) || (act.TrialAct? && !rows[act.b].trialUsed))
  }

  function Lost(c: Catalog, rows: Rows, act: Act, a: Account, m: Meter): int {
    if act.b == a && Discards(c, rows, act) then UsedOf(rows, a, m) else 0
  }

  function Discarded(c: Catalog, acts: seq<Act>, a: Account, m: Meter): int
    requires c.Valid()
  {
    if acts == [] then 0
    else Discarded(c, Init(acts), a, m) + Lost(c, PerformAll(c, EMPTY, Init(acts)).rows, Last(acts), a, m)
  }

  function Gained(c: Catalog, rows: Rows, act: Act, a: Account, m: Meter): int {
    if act.UseAct? && act.b == a && Applies(c, rows, act) then Amount(act.runs, act.tokens, m) else 0
  }

  lemma RolledUsage(c: Catalog, s: Subscription, now: int, m: Meter)
    requires c.Valid()
    ensures var r := Rolled(c, s, now);
      r.trialUsed == s.trialUsed && Reading(r, m) == if Expired(s, now) then 0 else Reading(s, m)
  {
  }

  lemma NewRowUsage(c: Catalog, rows: Rows, act: Act, m: Meter)
    requires c.Valid() && Applies(c, rows, act)
    ensures Reading(NewRow(c, rows, act), m)
         == UsedOf(rows, act.b, m) - Lost(c, rows, act, act.b, m) + Gained(c, rows, act, act.b, m)
  {
    if act.b in rows {
      RolledUsage(c, rows[act.b], act.now, m);
    }
  }

  lemma RowsBalance(c: Catalog, l: Ledger, act: Act, a: Account, m: Meter)
    requires c.Valid()
    ensures UsedOf(Perform(c, l, act).rows, a, m)
         == UsedOf(l.rows, a, m) - Lost(c, l.rows, act, a, m) + Gained(c, l.rows, act, a, m)
  {
    if Applies(c, l.rows, act) {
      NewRowUsage(c, l.rows, act, m);
    }
  }

  lemma EventBalance(events: seq<UsageEvent>, act: Act, a: Account, m: Meter)
    ensures Reported(events + EventsOf(act), a, m)
         == Reported(events, a, m) + if act.UseAct? && act.b == a then Amount(act.runs, act.tokens, m) else 0
  {
    if act.UseAct? {
      assert Init(events + EventsOf(act)) == events;
    } else {
      assert events + [] == events;
    }
  }

  lemma EventsBalance(c: Catalog, l: Ledger, act: Act, a: Account, m: Meter)
    requires c.Valid()
    ensures Reported(Perform(c, l, act).events, a, m) == Reported(l.events, a, m) + Gained(c, l.rows, act, a, m)
  {
    EventBalance(l.events, act, a, m);
  }

  lemma {:induction false} ActsConserve(c: Catalog, acts: seq<Act>, a: Account, m: Meter)
    requires c.Valid()
    ensures var l := PerformAll(c, EMPTY, acts);
      Reported(l.events, a, m) == UsedOf(l.rows, a, m) + Discarded(c, acts, a, m)
  {
    if acts != [] {
      var l := PerformAll(c, EMPTY, Init(acts));
      ActsConserve(c, Init(acts), a, m);
      RowsBalance(c, l, Last(acts), a, m);
      EventsBalance(c, l, Last(acts), a, m);
    }
  }

  /** Nothing is lost: all usage ever reported is in the counters or was discarded by a rollover or a trial start. */
  lemma {:induction false} UsageConservation(c: Catalog, calls: seq<Call>, a: Account, m: Meter)
    requires c.Valid()
    ensures Reported(Exec(c, calls).events, a, m) == UsedOf(Exec(c, calls).rows, a, m) + Discarded(c, AllActs(c, calls), a, m)
  {
    ExecIsActs(c, calls);
    ActsConserve(c, AllActs(c, calls), a, m);
  }
}
