/**
 Which row a service call reaches. The guard and the plan changes normalise the caller's ids once; usage reports
 and trial starts create the missing row from ids normalised twice, and then look for the ids normalised once.
 */
module BillingAccounts {
  import opened Common
  import opened Slug
  import opened Billing

  predicate CleanIds(user: string, tenant: string) {
    CutsCleanly(user) && CutsCleanly(tenant)
  }

  lemma SameAccountAgain(user: string, tenant: string)
    ensures Again(AccountOf(user, tenant)) == AccountOf(user, tenant) <==> CleanIds(user, tenant)
  {
    FallbackIsGood("user");
    FallbackIsGood("tenant_main");
    SlugTwice(user, "user");
    SlugTwice(tenant, "tenant_main");
  }

  /** A usage report fails exactly when its account has no row and the length cut spoils an id. */
  lemma ReportFindsRow(c: Catalog, l: Ledger, user: string, tenant: string, runs: int, tokens: int, now: int)
    requires c.Valid()
    ensures ReportUsage(c, l, user, tenant, runs, tokens, now).1 == None <==> AccountOf(user, tenant) in l.rows || CleanIds(user, tenant)
    ensures ReportUsage(c, l, user, tenant, runs, tokens, now).1 in {None, Some(SubscriptionNotFound)}
  {
    var a := AccountOf(user, tenant);
    SameAccountAgain(user, tenant);
    ReportAtFinds(c, l, a, Again(a), runs, tokens, now);
  }

  /** 119 letters, an underscore and a letter: the cut leaves the underscore at the end. */
  function LongId(): string {
    seq(119, _ => 'a') + "_x"
  }

  lemma LongIdIsSpoiled()
    ensures !CutsCleanly(LongId())
  {
    var id := LongId();
    assert SlugChars(id);
    CleanedOfSlug(id);
    assert id[0] == 'a' && Last(id) == 'x' && id[119] == '_';
    TrimNothing(id);
  }

  lemma TrimNothing(s: string)
    requires s != "" && s[0] != '_' && Last(s) != '_'
    ensures Trim(s, c => c == '_') == s
  {
  }

  /** So usage of such a user is never accepted before something else has made the row: neither a report nor a trial. */
  lemma LongIdIsNotFound(c: Catalog, tenant: string, plan: string, days: int, runs: int, tokens: int, now: int)
    requires c.Valid()
    ensures ReportUsage(c, EMPTY, LongId(), tenant, runs, tokens, now).1 == Some(SubscriptionNotFound)
    ensures ActivateTrial(c, EMPTY.rows, LongId(), tenant, plan, days, now).1 == Some(SubscriptionNotFound)
  {
    LongIdIsSpoiled();
    ReportFindsRow(c, EMPTY, LongId(), tenant, runs, tokens, now);
    TrialFindsRow(c, EMPTY.rows, LongId(), tenant, plan, days, now);
  }

  lemma ReportAtFinds(c: Catalog, l: Ledger, a: Account, again: Account, runs: int, tokens: int, now: int)
    requires c.Valid()
    ensures ReportAt(c, l, a, again, runs, tokens, now).1 == if a in l.rows || again == a then None else Some(SubscriptionNotFound)
  {
  }

  /** A trial start answers "not found" in the same cases, "already used" exactly on a row with a used trial, and succeeds otherwise. */
  lemma TrialFindsRow(c: Catalog, rows: Rows, user: string, tenant: string, plan: string, days: int, now: int)
    requires c.Valid()
    ensures var a, answer := AccountOf(user, tenant), ActivateTrial(c, rows, user, tenant, plan, days, now).1;
      && (answer == Some(SubscriptionNotFound) <==> a !in rows && !CleanIds(user, tenant))
      && (answer == Some(TrialAlreadyUsed) <==> a in rows && rows[a].trialUsed)
  {
    var a := AccountOf(user, tenant);
    SameAccountAgain(user, tenant);
    TrialAtFinds(c, rows, a, Again(a), TrialPlan(c, plan), days, now);
  }

  lemma TrialAtFinds(c: Catalog, rows: Rows, a: Account, again: Account, plan: string, days: int, now: int)
    requires c.Valid() && plan in c.plans
    ensures var answer := TrialAt(c, rows, a, again, plan, days, now).1;
      && (answer == Some(SubscriptionNotFound) <==> a !in rows && again != a)
      && (answer == Some(TrialAlreadyUsed) <==> a in rows && rows[a].trialUsed)
  {
  }

  /** After ensure_subscription, a report and a trial start reach that row whatever the ids look like. */
  lemma {:induction false} EnsuredRowIsReached(c: Catalog, l: Ledger, user: string, tenant: string, runs: int, tokens: int, now: int, later: int)
    requires c.Valid()
    ensures var a := AccountOf(user, tenant);
      var ensured := Ledger(EnsureAt(c, l.rows, a, now), l.events);
      var (after, error) := ReportUsage(c, ensured, user, tenant, runs, tokens, later);
      error == None && after.rows[a] == Used(Rolled(c, EnsuredRow(c, l.rows, a, now), later), runs, tokens)
  {
    var a := AccountOf(user, tenant);
    var ensured := Ledger(EnsureAt(c, l.rows, a, now), l.events);
    ReportReaches(c, ensured, a, Again(a), runs, tokens, later);
  }

  lemma RolledOnce(c: Catalog, s: Subscription, now: int)
    requires c.Valid()
    ensures Rolled(c, Rolled(c, s, now), now) == Rolled(c, s, now)
  {
  }

  lemma ReportReaches(c: Catalog, l: Ledger, a: Account, again: Account, runs: int, tokens: int, now: int)
    requires c.Valid() && a in l.rows
    ensures var (after, error) := ReportAt(c, l, a, again, runs, tokens, now);
      error == None && a in after.rows && after.rows[a] == Used(Rolled(c, l.rows[a], now), runs, tokens)
  {
    RolledOnce(c, l.rows[a], now);
  }
}
