/** What provider events do to the service a user gets: whether the guard lets anything through afterwards. */
module BillingEvents {
  import opened Common
  import opened Slug
  import opened Billing
  import opened BillingRuns
  import opened BillingTrials

  const BLOCKING := {"payment_failed", "past_due", "cancel", "canceled"}
  const OPENING := {"payment_succeeded", "activate", "resume", "downgrade_free", "upgrade_pro", "upgrade_enterprise", "upgrade_free"}

  lemma PlainLower(text: string)
    requires SlugChars(text)
    ensures Lower(text) == text
  {
    forall i | 0 <= i < |text|
      ensures Lower(text)[i] == text[i]
    {
      assert IsSlugChar(text[i]);
    }
  }

  /** The status that an event with this code writes over the status it finds. */
  function EventText(code: string, status: string): string {
    if code in {"payment_failed", "past_due"} then "past_due"
    else if code in {"cancel", "canceled"} then "canceled"
    else if code in OPENING then "active"
    else SafeSlug(status, "active")
  }

  function EventStatus(action: string, status: string): string {
    EventText(SafeSlug(action, "noop"), status)
  }

  lemma KnownText(text: string)
    requires text in {"active", "trialing", "past_due", "canceled"}
    ensures Lower(text) == text && SafeSlug(text, "active") == text
  {
    PlainSlug(text, "active");
    PlainLower(text);
  }

  lemma RequestedText(code: string, p: string, cy: string, status: string)
    ensures if code in BLOCKING + OPENING then Requested(code, p, cy, status).status == EventText(code, status)
            else Requested(code, p, cy, status).status == status
    ensures Requested(code, p, cy, status).cycle == cy
  {
  }

  lemma CodeWrites(code: string, p: string, cy: string, status: string)
    ensures SafeSlug(Requested(code, p, cy, status).status, "active") == EventText(code, status)
  {
    RequestedText(code, p, cy, status);
    if code in BLOCKING + OPENING {
      KnownText(EventText(code, status));
    }
  }

  lemma EventWrites(c: Catalog, s: Subscription, action: string, plan: string, cycle: string)
    requires c.Valid()
    ensures SafeSlug(WebhookTarget(c, s, action, plan, cycle).status, "active") == EventStatus(action, s.status)
  {
    var p := SafeSlug(if plan == "" then s.plan else plan, c.defaultPlan);
    var cy := SafeSlug(if cycle == "" then s.cycle else cycle, c.defaultCycle);
    CodeWrites(SafeSlug(action, "noop"), p, cy, s.status);
  }

  // ----- over whole runs -----

  const SERVED := {"active", "trialing"}

  /**
   The status text that the calls on an account left behind: set by plan calls, provider events and trial
   starts, and by nothing else. A new account starts as served. Time, rollovers and usage play no part.
   */
  function Standing(c: Catalog, calls: seq<Call>, a: Account): string
    requires c.Valid()
  {
    if calls == [] then "active"
    else NextStanding(c, Exec(c, Init(calls)).rows, Last(calls), a, Standing(c, Init(calls), a))
  }

  function NextStanding(c: Catalog, rows: Rows, call: Call, a: Account, standing: string): string
    requires c.Valid()
  {
    if Target(call) != a then standing
    else if call.PlanCall? then SafeSlug(call.status, "active")
    else if call.WebhookCall? then EventStatus(call.action, standing)
    else if Starts(c, rows, call, a) then "trialing"
    else standing
  }

  /** The stored status is that text, or both mean that the service runs. */
  predicate Agrees(status: string, standing: string) {
    Lower(status) == status && (status == standing || (status in SERVED && standing in SERVED))
  }

  predicate RowAgrees(rows: Rows, a: Account, standing: string) {
    if a in rows then Agrees(rows[a].status, standing) else standing in SERVED
  }

  lemma SlugIsLower(text: string)
    ensures Lower(SafeSlug(text, "active")) == SafeSlug(text, "active")
  {
    SlugNormalForm(text, "active");
    if SafeSlug(text, "active") == "active" {
      KnownText(SafeSlug(text, "active"));
    } else {
      PlainLower(SafeSlug(text, "active"));
    }
  }

  lemma RolledAgrees(c: Catalog, s: Subscription, now: int, standing: string)
    requires c.Valid() && Agrees(s.status, standing)
    ensures Agrees(Rolled(c, s, now).status, standing)
  {
    KnownText("active");
  }

  lemma EnsureAgrees(c: Catalog, rows: Rows, b: Account, now: int, a: Account, standing: string)
    requires c.Valid() && RowAgrees(rows, a, standing)
    ensures RowAgrees(EnsureAt(c, rows, b, now), a, standing)
  {
    if a == b && a in rows {
      RolledAgrees(c, rows[a], now, standing);
    } else if a == b {
      KnownText(DefaultSubscription(c, now).status);
    }
  }

  lemma EventAgrees(code: string, status: string, standing: string)
    requires Agrees(status, standing)
    ensures Agrees(EventText(code, status), EventText(code, standing))
  {
    if code in BLOCKING + OPENING {
      assert EventText(code, status) == EventText(code, standing);
      KnownText(EventText(code, status));
    } else {
      SlugAgrees(status, standing);
    }
  }

  lemma SlugAgrees(status: string, standing: string)
    requires Agrees(status, standing)
    ensures Agrees(SafeSlug(status, "active"), SafeSlug(standing, "active"))
  {
    if status == standing {
      SlugIsLower(status);
    } else {
      KnownText(status);
      KnownText(standing);
    }
  }

  lemma PlanAgrees(c: Catalog, rows: Rows, b: Account, plan: string, cycle: string, status: string, now: int,
                   a: Account, standing: string, next: string)
    requires plan in c.plans && (if a == b then Agrees(status, next) else RowAgrees(rows, a, standing) && next == standing)
    ensures RowAgrees(PlanAt(c, rows, b, plan, cycle, status, now), a, next)
  {
  }

  lemma TrialAgrees(c: Catalog, rows: Rows, b: Account, again: Account, plan: string, days: int, now: int, a: Account, standing: string)
    requires c.Valid() && plan in c.plans && RowAgrees(rows, a, standing)
    ensures var (after, error) := TrialAt(c, rows, b, again, plan, days, now);
      RowAgrees(after, a, if a == b && error == None then "trialing" else standing)
  {
    var found := if b in rows then rows else EnsureAt(c, rows, again, now);
    EnsureAgrees(c, rows, again, now, a, standing);
    if b in found {
      KnownText("trialing");
      EnsureAgrees(c, found, b, now, a, standing);
      assert EnsureAt(c, found, b, now) == found[b := Rolled(c, found[b], now)];
    }
  }

  lemma ReportAgrees(c: Catalog, l: Ledger, b: Account, again: Account, runs: int, tokens: int, now: int, a: Account, standing: string)
    requires c.Valid() && RowAgrees(l.rows, a, standing)
    ensures RowAgrees(ReportAt(c, l, b, again, runs, tokens, now).0.rows, a, standing)
  {
    var rows := EnsureAt(c, l.rows, again, now);
    EnsureAgrees(c, l.rows, again, now, a, standing);
    if a == b && a in rows {
      RolledAgrees(c, rows[a], now, standing);
    }
  }

  lemma EventRowAgrees(c: Catalog, rows: Rows, action: string, plan: string, cycle: string, now: int, a: Account, standing: string)
    requires c.Valid() && RowAgrees(rows, a, standing)
    ensures var s := EnsuredRow(c, rows, a, now);
      Agrees(SafeSlug(WebhookTarget(c, s, action, plan, cycle).status, "active"), EventStatus(action, standing))
  {
    var s := EnsuredRow(c, rows, a, now);
    EnsureAgrees(c, rows, a, now, a, standing);
    assert EnsureAt(c, rows, a, now)[a] == s;
    EventWrites(c, s, action, plan, cycle);
    EventAgrees(SafeSlug(action, "noop"), s.status, standing);
  }

  lemma StepAgrees(c: Catalog, l: Ledger, call: Call, a: Account, standing: string)
    requires c.Valid() && RowAgrees(l.rows, a, standing)
    ensures RowAgrees(Step(c, l, call).rows, a, NextStanding(c, l.rows, call, a, standing))
  {
    var b := Target(call);
    match call
    case EnsureCall(_, _, now) => EnsureAgrees(c, l.rows, b, now, a, standing);
    case GuardCall(_, _, _, _, now) => EnsureAgrees(c, l.rows, b, now, a, standing);
    case PlanCall(_, _, plan, cycle, status, now) =>
      SlugIsLower(status);
      PlanAgrees(c, l.rows, b, PlanCode(c, plan), CycleCode(c, cycle), SafeSlug(status, "active"), now, a, standing,
                 if a == b then SafeSlug(status, "active") else standing);
    case WebhookCall(_, _, action, plan, cycle, now) =>
      var t := WebhookTarget(c, EnsuredRow(c, l.rows, b, now), action, plan, cycle);
      EnsureAgrees(c, l.rows, b, now, a, standing);
      if a == b {
        EventRowAgrees(c, l.rows, action, plan, cycle, now, a, standing);
      }
      PlanAgrees(c, EnsureAt(c, l.rows, b, now), b, PlanCode(c, t.plan), CycleCode(c, t.cycle), SafeSlug(t.status, "active"), now,
                 a, standing, if a == b then EventStatus(action, standing) else standing);
    case TrialCall(_, _, plan, days, now) => TrialAgrees(c, l.rows, b, Again(b), TrialPlan(c, plan), days, now, a, standing);
    case ReportCall(_, _, runs, tokens, now) => ReportAgrees(c, l, b, Again(b), runs, tokens, now, a, standing);
  }

  lemma {:induction false} RunAgrees(c: Catalog, calls: seq<Call>, a: Account)
    requires c.Valid()
    ensures RowAgrees(Exec(c, calls).rows, a, Standing(c, calls, a))
  {
    if calls != [] {
      RunAgrees(c, Init(calls), a);
      StepAgrees(c, Exec(c, Init(calls)), Last(calls), a, Standing(c, Init(calls), a));
    }
  }

  lemma OpenAsStanding(c: Catalog, rows: Rows, a: Account, standing: string, later: int)
    requires c.Valid() && RowAgrees(rows, a, standing)
    ensures Open(EnsuredRow(c, rows, a, later)) <==> standing in SERVED
  {
    EnsureAgrees(c, rows, a, later, a, standing);
    assert EnsureAt(c, rows, a, later)[a] == EnsuredRow(c, rows, a, later);
  }

  /** In every run, at every later time, the service is open to an account exactly as the last call that set its status left it. */
  lemma {:induction false} ServiceFollowsStanding(c: Catalog, calls: seq<Call>, a: Account, later: int)
    requires c.Valid()
    ensures Open(EnsuredRow(c, Exec(c, calls).rows, a, later)) <==> Standing(c, calls, a) in SERVED
  {
    RunAgrees(c, calls, a);
    OpenAsStanding(c, Exec(c, calls).rows, a, Standing(c, calls, a), later);
  }

  /** The call reopens a closed account: a plan call, an opening event, or a trial that starts. */
  predicate MayReopen(c: Catalog, rows: Rows, call: Call, a: Account)
    requires c.Valid()
  {
    Target(call) == a &&
    (call.PlanCall? || (call.WebhookCall? && SafeSlug(call.action, "noop") in OPENING) || Starts(c, rows, call, a))
  }

  predicate NeverReopens(c: Catalog, before: seq<Call>, more: seq<Call>, a: Account)
    requires c.Valid()
  {
    more == [] || (NeverReopens(c, before, Init(more), a) && !MayReopen(c, Exec(c, before + Init(more)).rows, Last(more), a))
  }

  const CLOSED := {"past_due", "canceled"}

  lemma ClosedStep(c: Catalog, rows: Rows, call: Call, a: Account, standing: string)
    requires c.Valid() && standing in CLOSED && !MayReopen(c, rows, call, a)
    ensures NextStanding(c, rows, call, a, standing) in CLOSED
  {
    KnownText(standing);
  }

  lemma BlockingStep(c: Catalog, rows: Rows, event: Call, standing: string)
    requires c.Valid() && event.WebhookCall? && SafeSlug(event.action, "noop") in BLOCKING
    ensures NextStanding(c, rows, event, Target(event), standing) in CLOSED
  {
  }

  lemma {:induction false} StandsClosed(c: Catalog, before: seq<Call>, event: Call, more: seq<Call>, a: Account)
    requires c.Valid() && event.WebhookCall? && Target(event) == a && SafeSlug(event.action, "noop") in BLOCKING
    requires NeverReopens(c, before + [event], more, a)
    ensures Standing(c, before + [event] + more, a) in CLOSED
  {
    var calls := before + [event] + more;
    if more == [] {
      assert Init(calls) == before && Last(calls) == event;
      BlockingStep(c, Exec(c, before).rows, event, Standing(c, before, a));
    } else {
      assert Init(calls) == before + [event] + Init(more) && Last(calls) == Last(more);
      StandsClosed(c, before, event, Init(more), a);
      ClosedStep(c, Exec(c, Init(calls)).rows, Last(more), a, Standing(c, Init(calls), a));
    }
  }

  lemma ClosedAnswer(c: Catalog, calls: seq<Call>, a: Account, runs: int, tokens: int, later: int)
    requires c.Valid() && Standing(c, calls, a) in CLOSED
    ensures Guard(EnsuredRow(c, Exec(c, calls).rows, a, later), runs, tokens) == Inactive
  {
    ServiceFollowsStanding(c, calls, a, later);
  }

  /** After a failed payment or a cancellation nothing is allowed until a plan call, an opening event or a first trial. */
  lemma {:induction false} ClosedUntilReopened(c: Catalog, before: seq<Call>, event: Call, more: seq<Call>, runs: int, tokens: int, later: int)
    requires c.Valid() && event.WebhookCall? && SafeSlug(event.action, "noop") in BLOCKING
    requires NeverReopens(c, before + [event], more, Target(event))
    ensures Guard(EnsuredRow(c, Exec(c, before + [event] + more).rows, Target(event), later), runs, tokens) == Inactive
  {
    StandsClosed(c, before, event, more, Target(event));
    ClosedAnswer(c, before + [event] + more, Target(event), runs, tokens, later);
  }

  /** A trial that starts after a cancellation opens the service again: the trial start ignores the status. */
  lemma {:induction false} TrialReopens(c: Catalog, before: seq<Call>, start: Call, later: int)
    requires c.Valid() && Starts(c, Exec(c, before).rows, start, Target(start))
    ensures Open(EnsuredRow(c, Exec(c, before + [start]).rows, Target(start), later))
  {
    assert Init(before + [start]) == before;
    ServiceFollowsStanding(c, before + [start], Target(start), later);
  }
}
