/**
 The quota guard over whole runs. A guard only answers; the counters move when usage is reported later. Runs
 stay within the limits exactly when each report and each plan change fits. One discipline that makes them fit
 is a reservation: an allowed guard on the same account at the same instant, with no call on it in between.
 */
module BillingQuota {
  import opened Common
  import opened Slug
  import opened Billing
  import opened BillingRuns

  /** There is room for these amounts on top of what is used. */
  predicate Room(s: Subscription, runs: int, tokens: int) {
    && (s.runLimit > 0 ==> s.usedRuns + runs <= s.runLimit)
    && (s.tokenLimit > 0 ==> s.usedTokens + tokens <= s.tokenLimit)
  }

  /**
   The guard allows exactly what could be reported within the limits while the service is open; otherwise it
   names the status first, then the run limit, then the token limit.
   */
  lemma GuardExact(s: Subscription, runs: int, tokens: int)
    ensures Guard(s, runs, tokens)
         == if !Open(s) then Inactive
            else if Within(Used(s, runs, tokens)) then Allowed
            else if !RunsWithin(Used(s, runs, tokens)) then RunQuotaExceeded
            else TokenQuotaExceeded
    ensures Within(Used(s, runs, tokens)) <==> Room(s, Max(0, runs), Max(0, tokens))
  {
  }

  ghost predicate AllWithin(rows: Rows) {
    forall a :: a in rows ==> Within(rows[a])
  }

  predicate LimitKept(before: int, after: int) {
    after <= 0 || 0 < before <= after
  }

  predicate NotLowered(s: Subscription, p: Plan) {
    LimitKept(s.runLimit, p.runLimit) && LimitKept(s.tokenLimit, p.tokenLimit)
  }

  ghost predicate SafePlanChange(c: Catalog, s: Subscription, plan: string)
    requires plan in c.plans
  {
    forall runs, tokens, cycle, status, now ::
      Within(s.(usedRuns := runs, usedTokens := tokens)) ==>
        Within(Replanned(c, s.(usedRuns := runs, usedTokens := tokens), plan, cycle, status, now))
  }

  lemma LoweringIsUnsafe(c: Catalog, s: Subscription, plan: string)
    requires plan in c.plans && !NotLowered(s, c.plans[plan])
    ensures !SafePlanChange(c, s, plan)
  {
    var p := c.plans[plan];
    var tight :=
      if !LimitKept(s.runLimit, p.runLimit)
      then s.(usedRuns := if s.runLimit > 0 then s.runLimit else p.runLimit + 1, usedTokens := Min(0, s.tokenLimit))
      else s.(usedRuns := Min(0, s.runLimit), usedTokens := if s.tokenLimit > 0 then s.tokenLimit else p.tokenLimit + 1);
    assert Within(tight);
    assert !Within(Replanned(c, tight, plan, "", "", 0));
    assert tight == s.(usedRuns := tight.usedRuns, usedTokens := tight.usedTokens);
  }

  /** Not lowering a limit is exactly what a plan change must do to be safe whatever was used so far. */
  lemma PlanChangeIsSafe(c: Catalog, s: Subscription, plan: string)
    requires plan in c.plans
    ensures SafePlanChange(c, s, plan) <==> NotLowered(s, c.plans[plan])
  {
    if !NotLowered(s, c.plans[plan]) {
      LoweringIsUnsafe(c, s, plan);
    }
  }

  // ----- reservations -----

  datatype Reservation = Reservation(now: int, runs: int, tokens: int)

  /** Trials and reports may also write the row of the ids normalised once more. */
  predicate Touches(call: Call, a: Account) {
    Target(call) == a || ((call.TrialCall? || call.ReportCall?) && Again(Target(call)) == a)
  }

  function Reserved(c: Catalog, calls: seq<Call>, a: Account): Option<Reservation>
    requires c.Valid()
  {
    if calls == [] then None
    else if !Touches(Last(calls), a) then Reserved(c, Init(calls), a)
    else if Last(calls).GuardCall? then Granted(c, Exec(c, Init(calls)).rows, Last(calls))
    else None
  }

  function Granted(c: Catalog, rows: Rows, call: Call): Option<Reservation>
    requires c.Valid() && call.GuardCall?
  {
    if Guard(EnsuredRow(c, rows, Target(call), call.now), call.runs, call.tokens) == Allowed
    then Some(Reservation(call.now, Max(0, call.runs), Max(0, call.tokens))) else None
  }

  predicate CarefulStep(c: Catalog, rows: Rows, call: Call, held: Option<Reservation>)
    requires c.Valid()
  {
    var a := Target(call);
    match call
    case ReportCall(_, _, runs, tokens, now) => held.Some? && held.value.now == now && runs <= held.value.runs && tokens <= held.value.tokens
    case PlanCall(_, _, plan, _, _, _) => a in rows ==> NotLowered(rows[a], c.plans[PlanCode(c, plan)])
    case WebhookCall(_, _, action, plan, cycle, now) =>
      var s := EnsuredRow(c, rows, a, now);
      NotLowered(s, c.plans[PlanCode(c, WebhookTarget(c, s, action, plan, cycle).plan)])
    case _ => true
  }

  predicate Careful(c: Catalog, calls: seq<Call>)
    requires c.Valid()
  {
    calls == [] ||
    (Careful(c, Init(calls)) &&
     CarefulStep(c, Exec(c, Init(calls)).rows, Last(calls), Reserved(c, Init(calls), Target(Last(calls)))))
  }

  /** What a reservation promises about the row it was made on. */
  ghost predicate Held(rows: Rows, a: Account, held: Option<Reservation>) {
    held.Some? ==>
      && 0 <= held.value.runs && 0 <= held.value.tokens
      && a in rows && !Expired(rows[a], held.value.now) && Room(rows[a], held.value.runs, held.value.tokens)
  }

  // ----- exactly when the limits hold -----

  predicate FitsPlan(s: Subscription, p: Plan) {
    (p.runLimit > 0 ==> s.usedRuns <= p.runLimit) && (p.tokenLimit > 0 ==> s.usedTokens <= p.tokenLimit)
  }

  /**
   What a caller has to check before a call: a report needs the room that a guard at that instant would look
   for, a plan change limits that the current usage fits. All other calls are safe.
   */
  predicate Fits(c: Catalog, rows: Rows, call: Call)
    requires c.Valid()
  {
    var a := Target(call);
    match call
    case ReportCall(_, _, runs, tokens, now) =>
      a in rows || Again(a) == a ==> Room(EnsuredRow(c, rows, a, now), Max(0, runs), Max(0, tokens))
    case PlanCall(_, _, plan, _, _, _) => a in rows ==> FitsPlan(rows[a], c.plans[PlanCode(c, plan)])
    case WebhookCall(_, _, action, plan, cycle, now) =>
      var s := EnsuredRow(c, rows, a, now);
      FitsPlan(s, c.plans[PlanCode(c, WebhookTarget(c, s, action, plan, cycle).plan)])
    case _ => true
  }

  lemma EnsureKeepsQuota(c: Catalog, rows: Rows, a: Account, now: int)
    requires c.Valid() && AllWithin(rows)
    ensures AllWithin(EnsureAt(c, rows, a, now))
  {
    assert Within(EnsuredRow(c, rows, a, now)) by {
      if a in rows {
        assert Within(rows[a]);
      }
    }
  }

  lemma WriteWithin(rows: Rows, a: Account, s: Subscription)
    requires AllWithin(rows)
    ensures AllWithin(rows[a := s]) <==> Within(s)
  {
    assert a in rows[a := s];
  }

  lemma PlanWithin(c: Catalog, rows: Rows, a: Account, plan: string, cycle: string, status: string, now: int)
    requires plan in c.plans && AllWithin(rows)
    ensures AllWithin(PlanAt(c, rows, a, plan, cycle, status, now)) <==> (a in rows ==> FitsPlan(rows[a], c.plans[plan]))
  {
    WriteWithin(rows, a, Replanned(c, if a in rows then rows[a] else BLANK, plan, cycle, status, now));
  }

  lemma TrialKeepsQuota(c: Catalog, rows: Rows, a: Account, again: Account, plan: string, days: int, now: int)
    requires c.Valid() && plan in c.plans && AllWithin(rows)
    ensures AllWithin(TrialAt(c, rows, a, again, plan, days, now).0)
  {
    EnsureKeepsQuota(c, rows, again, now);
    var found := if a in rows then rows else EnsureAt(c, rows, again, now);
    if a in found {
      EnsureKeepsQuota(c, found, a, now);
      assert EnsureAt(c, found, a, now)[a] == Rolled(c, found[a], now);
      assert Within(Trialed(c, Rolled(c, found[a], now), plan, days, now));
    }
  }

  lemma ReportWithin(c: Catalog, l: Ledger, a: Account, again: Account, runs: int, tokens: int, now: int)
    requires c.Valid() && AllWithin(l.rows)
    ensures AllWithin(ReportAt(c, l, a, again, runs, tokens, now).0.rows) <==>
            (a in l.rows || again == a ==> Room(EnsuredRow(c, l.rows, a, now), Max(0, runs), Max(0, tokens)))
  {
    var rows := EnsureAt(c, l.rows, again, now);
    EnsureKeepsQuota(c, l.rows, again, now);
    if a in rows {
      assert Rolled(c, rows[a], now) == EnsuredRow(c, l.rows, a, now);
      WriteWithin(rows, a, Used(EnsuredRow(c, l.rows, a, now), runs, tokens));
      GuardExact(EnsuredRow(c, l.rows, a, now), runs, tokens);
    }
  }

  /** From a state within all limits one call stays within them exactly when it fits. */
  lemma StepWithin(c: Catalog, l: Ledger, call: Call)
    requires c.Valid() && AllWithin(l.rows)
    ensures AllWithin(Step(c, l, call).rows) <==> Fits(c, l.rows, call)
  {
    var a := Target(call);
    match call
    case EnsureCall(_, _, now) => EnsureKeepsQuota(c, l.rows, a, now);
    case GuardCall(_, _, _, _, now) => EnsureKeepsQuota(c, l.rows, a, now);
    case PlanCall(_, _, plan, cycle, status, now) =>
      PlanWithin(c, l.rows, a, PlanCode(c, plan), CycleCode(c, cycle), SafeSlug(status, "active"), now);
    case WebhookCall(_, _, action, plan, cycle, now) =>
      var t := WebhookTarget(c, EnsuredRow(c, l.rows, a, now), action, plan, cycle);
      EnsureKeepsQuota(c, l.rows, a, now);
      PlanWithin(c, EnsureAt(c, l.rows, a, now), a, PlanCode(c, t.plan), CycleCode(c, t.cycle), SafeSlug(t.status, "active"), now);
    case TrialCall(_, _, plan, days, now) => TrialKeepsQuota(c, l.rows, a, Again(a), TrialPlan(c, plan), days, now);
    case ReportCall(_, _, runs, tokens, now) => ReportWithin(c, l, a, Again(a), runs, tokens, now);
  }

  ghost predicate AlwaysWithin(c: Catalog, calls: seq<Call>)
    requires c.Valid()
  {
    AllWithin(Exec(c, calls).rows) && (calls != [] ==> AlwaysWithin(c, Init(calls)))
  }

  predicate FittingRun(c: Catalog, calls: seq<Call>)
    requires c.Valid()
  {
    calls != [] ==> FittingRun(c, Init(calls)) && Fits(c, Exec(c, Init(calls)).rows, Last(calls))
  }

  /** A run is within every positive limit in all its states exactly when each of its calls fits. */
  lemma {:induction false} WithinExactly(c: Catalog, calls: seq<Call>)
    requires c.Valid()
    ensures AlwaysWithin(c, calls) <==> FittingRun(c, calls)
  {
    if calls != [] {
      WithinExactly(c, Init(calls));
      if AlwaysWithin(c, Init(calls)) {
        StepWithin(c, Exec(c, Init(calls)), Last(calls));
      }
    }
  }

  // ----- reservations make calls fit -----

  lemma GuardHolds(c: Catalog, rows: Rows, call: Call)
    requires c.Valid() && call.GuardCall?
    ensures Held(EnsureAt(c, rows, Target(call), call.now), Target(call), Granted(c, rows, call))
  {
    assert !Expired(EnsuredRow(c, rows, Target(call), call.now), call.now);
  }

  predicate SameRow(rows: Rows, after: Rows, a: Account) {
    (a in rows <==> a in after) && (a in rows ==> after[a] == rows[a])
  }

  lemma OtherRowsStayAt(c: Catalog, l: Ledger, b: Account, again: Account, plan: string, n: int, m: int, now: int, a: Account)
    requires c.Valid() && plan in c.plans && a != b && a != again
    ensures SameRow(l.rows, TrialAt(c, l.rows, b, again, plan, n, now).0, a)
    ensures SameRow(l.rows, ReportAt(c, l, b, again, n, m, now).0.rows, a)
  {
  }

  /** A call leaves every row it does not touch as it was. */
  lemma OtherRowsStay(c: Catalog, l: Ledger, call: Call, a: Account)
    requires c.Valid() && !Touches(call, a)
    ensures SameRow(l.rows, Step(c, l, call).rows, a)
  {
    var b := Target(call);
    match call
    case TrialCall(_, _, plan, days, now) => OtherRowsStayAt(c, l, b, Again(b), TrialPlan(c, plan), days, 0, now, a);
    case ReportCall(_, _, runs, tokens, now) => OtherRowsStayAt(c, l, b, Again(b), "free", runs, tokens, now, a);
    case _ =>
  }

  lemma CarefulFits(c: Catalog, rows: Rows, call: Call, held: Option<Reservation>)
    requires c.Valid() && AllWithin(rows)
    requires Held(rows, Target(call), held) && CarefulStep(c, rows, call, held)
    ensures Fits(c, rows, call)
  {
    var a := Target(call);
    if call.WebhookCall? {
      EnsureKeepsQuota(c, rows, a, call.now);
      assert Within(EnsureAt(c, rows, a, call.now)[a]);
    }
  }

  lemma {:induction false} ReservationsHold(c: Catalog, calls: seq<Call>, a: Account)
    requires c.Valid()
    ensures Held(Exec(c, calls).rows, a, Reserved(c, calls, a))
  {
    if calls != [] {
      var l, call := Exec(c, Init(calls)), Last(calls);
      if !Touches(call, a) {
        ReservationsHold(c, Init(calls), a);
        OtherRowsStay(c, l, call, a);
      } else if call.GuardCall? {
        GuardHolds(c, l.rows, call);
      }
    }
  }

  /** In every careful run no account ever exceeds a positive limit: not after rollovers, trials or plan changes. */
  lemma {:induction false} QuotaHeld(c: Catalog, calls: seq<Call>)
    requires c.Valid() && Careful(c, calls)
    ensures FittingRun(c, calls) && AlwaysWithin(c, calls)
  {
    WithinExactly(c, calls);
    if calls != [] {
      QuotaHeld(c, Init(calls));
      ReservationsHold(c, Init(calls), Target(Last(calls)));
      CarefulFits(c, Exec(c, Init(calls)).rows, Last(calls), Reserved(c, Init(calls), Target(Last(calls))));
    }
  }

  // ----- why each hypothesis is there -----

  lemma RowRace(c: Catalog, a: Account, now: int)
    requires c.Valid() && Again(a) == a
    ensures var limit := c.plans[c.defaultPlan].runLimit;
      var s := DefaultSubscription(c, now);
      var one := ReportAt(c, Ledger(map[a := s], []), a, Again(a), limit, 0, now).0;
      && EnsureAt(c, map[], a, now) == map[a := s] == EnsureAt(c, map[a := s], a, now)
      && (limit > 0 ==> ReportAt(c, one, a, Again(a), limit, 0, now).0.rows == map[a := s.(usedRuns := 2 * limit)])
  {
    var limit := c.plans[c.defaultPlan].runLimit;
    var s := DefaultSubscription(c, now);
    assert !Expired(s, now);
    var one := ReportAt(c, Ledger(map[a := s], []), a, a, limit, 0, now).0;
    assert one.rows == map[a := Used(s, limit, 0)];
    var two := ReportAt(c, one, a, a, limit, 0, now).0;
    assert two.rows == map[a := Used(Used(s, limit, 0), limit, 0)];
  }

  lemma DefaultIsOpen(c: Catalog, now: int)
    requires c.Valid()
    ensures var s := DefaultSubscription(c, now);
      !Expired(s, now) && Guard(s, s.runLimit, 0) == Allowed
  {
    assert Lower("active") == "active" && Lower("trialing") == "trialing";
  }

  lemma GuardsPass(c: Catalog, guard: Call, a: Account, now: int)
    requires c.Valid() && guard.GuardCall? && guard.now == now && Target(guard) == a
    requires guard.runs == c.plans[c.defaultPlan].runLimit && guard.tokens == 0
    ensures Granted(c, map[], guard).Some? && Granted(c, map[a := DefaultSubscription(c, now)], guard).Some?
  {
    DefaultIsOpen(c, now);
  }

  /** Two guards that both pass before either report: both reports are accepted and the limit is exceeded. */
  lemma {:induction false} RaceExceedsQuota(c: Catalog, user: string, tenant: string, now: int)
    requires c.Valid() && c.plans[c.defaultPlan].runLimit > 0
    requires Again(AccountOf(user, tenant)) == AccountOf(user, tenant)
    ensures var limit := c.plans[c.defaultPlan].runLimit;
      var guard, report := GuardCall(user, tenant, limit, 0, now), ReportCall(user, tenant, limit, 0, now);
      && Granted(c, EMPTY.rows, guard).Some? && Granted(c, Step(c, EMPTY, guard).rows, guard).Some?
      && !AllWithin(Step(c, Step(c, Step(c, Step(c, EMPTY, guard), guard), report), report).rows)
  {
    var a, limit := AccountOf(user, tenant), c.plans[c.defaultPlan].runLimit;
    var s := DefaultSubscription(c, now);
    RowRace(c, a, now);
    var guarded := Ledger(map[a := s], []);
    var guard, report := GuardCall(user, tenant, limit, 0, now), ReportCall(user, tenant, limit, 0, now);
    GuardsPass(c, guard, a, now);
    assert Step(c, EMPTY, guard) == guarded && Step(c, guarded, guard) == guarded;
    var one := ReportAt(c, guarded, a, Again(a), limit, 0, now).0;
    var two := ReportAt(c, one, a, Again(a), limit, 0, now).0;
    assert Step(c, guarded, report) == one && Step(c, one, report) == two;
    assert !Within(two.rows[a]);
  }
}
