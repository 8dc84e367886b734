# Verified models of the dragon-senate SaaS core

A Dafny model of the state machines in `dragon-senate-saas-v2` and proofs of the properties they are relied on
for. Tables are maps from keys to rows, every public function is one atomic step (the code runs it under a
process lock or in one short transaction), clocks are integers passed in by the caller, and hashes, signatures and
tenant lookups are arbitrary functions. Where the source updates an object, the model is a class whose methods
follow the source statement by statement; each method is tied to a one-step function on values, and the theorems
are about all runs of those functions.

| Files | Component |
|---|---|
| `InboxModel`, `Inbox`, `InboxClaims`, `InboxStarvation`, `InboxRuns`, `InboxRows`, `InboxRetries`, `InboxWorkers`, `InboxOrder`, `InboxTopology`, `InboxLifecycle` | the task inbox: dependencies, claims, acknowledgements, stale sweep |
| `Throttle`, `Reliability`, `Redaction`, `RedactionInPlace`, `Pipeline` | the edge message pipeline |
| `Alert` | one alert rule under timed evaluations |
| `Slug`, `Billing`, `BillingAccounts`, `BillingRuns`, `BillingRows`, `BillingQuota`, `BillingTrials`, `BillingTrialRuns`, `BillingEvents` | subscriptions, usage, quotas, trials, provider events |
| `ApiKeys`, `ApiKeyFleet`, `ApiKeyUsage` | API keys with a verdict cache in each process |
| `Spans`, `Attribution` | span removal and credit attribution |
| `Common`, `Sums` | shared helpers |

Some properties one would expect are false of the code. They are stated with the exact condition under which they
hold, and with a concrete failing input:

- `mark_many_status` does not look at the old status, so an acknowledgement can complete a task before its
  dependencies, or leave fields that do not fit the status. `InboxOrder.StepOrder` and `InboxLifecycle.StepFit`
  give the conditions; `InboxOrder.UnguardedAckBreaksOrder` and `InboxLifecycle.UnguardedAckSpoilsFields` are runs
  of two calls that fail.
- `claim_ready_tasks` looks at the first 8 * limit queued rows only and can come back empty although a task is
  ready. `InboxStarvation.EmptyForEveryAnswer` and `InboxStarvation.EmptyForSomeAnswer` say exactly when;
  `InboxStarvation.StarvesForGood` is one enqueue after which no claim ever succeeds.
- `_safe_slug` is idempotent exactly when its cut at 120 characters does not end on an underscore
  (`Slug.SlugTwice`). Otherwise `report_usage` and `activate_trial` create a row under another key than the one
  they look up next, and answer "not found" (`BillingAccounts.ReportFindsRow`, `BillingAccounts.TrialFindsRow`;
  `BillingAccounts.LongIdIsNotFound` is such an id).
- The quota guard reserves nothing. A run stays within its limits exactly when each report and plan change fits
  (`BillingQuota.WithinExactly`); two guards before two reports exceed the limit (`BillingQuota.RaceExceedsQuota`).
- A plan change or provider event can restart the period of a running trial or set "trialing" on a trial that is
  over. `BillingTrials.TrialsEnd` gives the condition; `BillingTrialRuns.OneDayTrialLastsAMonth` is a run of three
  calls.
- Idempotency keys of different nodes can be equal when a node id contains a colon (`Pipeline.KeyClash`);
  `Pipeline.ForeignDuplicate` is a message dropped because of another node's.

Where the code and its own texts differ, the model follows the code:

- `rotate_key` is documented to keep the key's configuration; the code drops the expiry
  (`ApiKeyFleet.RotationKeepsTerms`).
- The alert state `silenced` is declared but no evaluation enters it (`Alert.LogFollowsState`); silencing is a
  comparison with the last firing.
- An explicit priority 0 becomes 100 (`InboxModel.PriorityOf`).
- A trial start does not look at the status and reopens a canceled account (`BillingEvents.TrialReopens`).

## Model

| member | source | states |
|---|---|---|
| Inbox.Inbox.Heartbeat | dragon-senate-saas-v2/clawteam_inbox.py:195-240 | a worker row is inserted with zero counters or refreshed with its three counters kept; no task changes |
| Inbox.Inbox.Enqueue | dragon-senate-saas-v2/clawteam_inbox.py:243-313 | each spec with a key inserts a queued row or resets the existing one, keeping its owner, creation time and attempts; the answer lists those rows in order |
| Inbox.Inbox.StatusMap | dragon-senate-saas-v2/clawteam_inbox.py:146-151 | the dictionary has exactly the keys of the trace's tasks, each with the status of its task |
| Inbox.Inbox.GetReady | dragon-senate-saas-v2/clawteam_inbox.py:316-341 | the loop with its early exit returns the first `limit` ready rows of the 5 * limit window |
| Inbox.Inbox.ClaimReady | dragon-senate-saas-v2/clawteam_inbox.py:344-435 | heartbeat plus claim loop equal the one-step claim on both tables, and the answer is the claimed rows |
| Inbox.Inbox.ClaimRows | dragon-senate-saas-v2/clawteam_inbox.py:381-435 | the loop with its mutated status dictionary, early break and guarded updates claims exactly the first `limit` in-lane ready rows as judged at the start, flips only those, and credits the worker once per row |
| Inbox.Inbox.TryClaim | dragon-senate-saas-v2/clawteam_inbox.py:398-432 | the guarded UPDATE succeeds exactly on a queued row; only then the worker is credited |
| Inbox.Inbox.MarkMany | dragon-senate-saas-v2/clawteam_inbox.py:438-512 | all rows with a listed key change status whatever it was, the count is the number of updates, and the acknowledging worker is credited with it |
| Inbox.Inbox.RequeueStale | dragon-senate-saas-v2/clawteam_inbox.py:515-589 | the sweep loop, with its nested acknowledgements, equals the one-step sweep, and its two lists are the failed and requeued rows in order |
| InboxRows.EnqueueAllRow | dragon-senate-saas-v2/clawteam_inbox.py:253-313 | after an enqueue a row has lane, priority and dependencies of the last spec with its key and waits; owner, creation time and attempts survive, rows without a spec stay |
| InboxRows.ClaimRow | dragon-senate-saas-v2/clawteam_inbox.py:353-411 | a handed-out row was queued for this user and trace and now runs under the worker, started and written at the claim, with one attempt more; all else in it, and all other rows, stay |
| InboxRows.MarkRow | dragon-senate-saas-v2/clawteam_inbox.py:452-478 | a listed row gets the status of the text, the acknowledging worker if one is given, the time, and a finish time for the three terminal texts; all else stays |
| InboxRows.SweepRow | dragon-senate-saas-v2/clawteam_inbox.py:535-578 | field by field what a sweep does to a row, decided by user, trace, status and the time since the row was last written |
| InboxRows.LeaseLaw | dragon-senate-saas-v2/clawteam_inbox.py:399-578 | in every run a task handed out at t and neither enqueued nor acknowledged since runs under that worker and is taken by a sweep exactly from t plus the stale age on |
| InboxRuns.StatusTexts | dragon-senate-saas-v2/clawteam_inbox.py:139-143 | stripped and in lower case, each of the five status texts is stored as itself and any other text as failed |
| Slug.StripBlanks | dragon-senate-saas-v2/clawteam_inbox.py:139-143 | blanks around a text are stripped, blanks inside are not |
| InboxRows.CompletionReadies | dragon-senate-saas-v2/clawteam_inbox.py:438-478 | in every run acknowledging "completed" completes the listed tasks and readies each task whose other dependencies are completed |
| InboxRows.CompletionCounts | dragon-senate-saas-v2/clawteam_inbox.py:480-490 | and adds the number of rows to the completions of that worker, and to no other counter of it |
| InboxRows.RowsAreEnqueued | dragon-senate-saas-v2/clawteam_inbox.py:253-300 | in every reachable state the table holds exactly the rows enqueued so far, with the terms of the last spec and the user and time of the first |
| InboxRows.HeartbeatWorker | dragon-senate-saas-v2/clawteam_inbox.py:210-232 | heartbeats and claims write user, trace, lanes, status and time of that worker and touch no other |
| InboxRows.AckWorker | dragon-senate-saas-v2/clawteam_inbox.py:479-511 | a terminal acknowledgement shows on the worker that made it, busy or idle by its text, and on no other |
| InboxRows.SweepWorker | dragon-senate-saas-v2/clawteam_inbox.py:549-562 | a sweep shows on exactly the workers whose tasks it failed |
| InboxClaims.ClaimIsFirstEligible | dragon-senate-saas-v2/clawteam_inbox.py:381-435 | claimed rows are distinct, eligible and at most `limit`; an eligible row is passed over only behind a full batch of earlier ones |
| InboxClaims.ClaimRespectsPriority | dragon-senate-saas-v2/clawteam_inbox.py:365-435 | no eligible task that was passed over, inside or outside the window, is strictly better than a claimed one |
| InboxClaims.EmptyClaimIsHonest | dragon-senate-saas-v2/clawteam_inbox.py:353-435 | the case of at most 8 * limit queued rows: an empty answer means exactly that no in-lane task is ready |
| InboxStarvation.WindowPosition | dragon-senate-saas-v2/clawteam_inbox.py:365-375 | in every answer of the SELECT a task with fewer than n others not worse is included, and one with n better ones is not |
| InboxStarvation.EmptyForEveryAnswer | dragon-senate-saas-v2/clawteam_inbox.py:353-435 | a claim is empty whatever the SELECT answers if and only if each eligible task has 8 * limit strictly better queued ones |
| InboxStarvation.EmptyForSomeAnswer | dragon-senate-saas-v2/clawteam_inbox.py:353-435 | it is empty for some answer if and only if each eligible task has 8 * limit blocked ones that are not worse |
| InboxStarvation.StarvesForGood | dragon-senate-saas-v2/clawteam_inbox.py:344-435 | for every limit one enqueue leads to a ready task that no later claim up to that limit gets, for every worker, lane set and answer, with heartbeats and sweeps in between |
| InboxClaims.WindowExists | dragon-senate-saas-v2/clawteam_inbox.py:365-375 | the ordered, limited SELECT always has an answer |
| InboxRuns.ClaimAccounting | dragon-senate-saas-v2/clawteam_inbox.py:399-432 | in every run the workers' claim counters and the tasks' attempt counters both sum to the number of tasks handed out |
| InboxRuns.StepAccounting | dragon-senate-saas-v2/clawteam_inbox.py:195-589 | every operation adds to both sums exactly the number of tasks it hands out |
| InboxWorkers.WorkerCounters | dragon-senate-saas-v2/clawteam_inbox.py:412-512 | in every run the counters of a worker are the tasks handed to it, the completions it acknowledged, and the failures it acknowledged plus the stale tasks it lost |
| InboxRetries.BoundedRetries | dragon-senate-saas-v2/clawteam_inbox.py:522-578 | attempts of a task never exceed the maximum plus the times it was put back by enqueue or a mark to queued, and are strictly less while it is queued |
| InboxRetries.ClaimsBounded | dragon-senate-saas-v2/clawteam_inbox.py:399-411 | the claims of a whole run are at most the maximum per task plus all put-backs |
| InboxOrder.StepOrder | dragon-senate-saas-v2/clawteam_inbox.py:377-478 | from a state where every task out of the queue has its dependencies completed, one step keeps that if and only if the caller met the stated guard |
| InboxOrder.OrderedRuns | dragon-senate-saas-v2/clawteam_inbox.py:377-478 | a run is ordered in all its states if and only if each call met the guard |
| InboxOrder.UnguardedAckBreaksOrder | dragon-senate-saas-v2/clawteam_inbox.py:455-478 | two calls that complete a task before its dependency |
| InboxTopology.DisciplinedRunsAreOrdered | dragon-senate-saas-v2/clawteam_inbox.py:377-478 | fresh enqueues and acknowledgements of running tasks only: every reachable state is ordered |
| InboxTopology.TopologicalExecution | dragon-senate-saas-v2/clawteam_inbox.py:377-421 | in such runs a task out of the queue has all dependencies completed, and its completion comes strictly after theirs |
| InboxTopology.KnotsStayQueued | dragon-senate-saas-v2/clawteam_inbox.py:377-421 | tasks on a dependency cycle or waiting for a key nobody enqueued are queued in every reachable state |
| InboxTopology.CyclesStayQueued | dragon-senate-saas-v2/clawteam_inbox.py:377-421 | a fully enqueued cycle stays a cycle and stays queued in every continuation |
| InboxTopology.AcyclicTraceNeverJams | dragon-senate-saas-v2/clawteam_inbox.py:377-397 | conversely an acyclic, closed trace with a queued task and nothing running or failed has a ready task |
| InboxLifecycle.StepFit | dragon-senate-saas-v2/clawteam_inbox.py:452-478 | one step keeps worker, start and finish fields in line with the status if and only if its acknowledgement met the stated guard |
| InboxLifecycle.LifecycleFields | dragon-senate-saas-v2/clawteam_inbox.py:281-478 | the fields fit in all states of a run if and only if each acknowledgement met the guard |
| InboxLifecycle.TerminalAcksKeepFields | dragon-senate-saas-v2/clawteam_inbox.py:452-478 | they fit throughout every run whose marks are terminal |
| InboxLifecycle.UnguardedAckSpoilsFields | dragon-senate-saas-v2/clawteam_inbox.py:452-478 | two calls that leave a running task without worker and start time |
| InboxLifecycle.SweepSplitsStaleTasks | dragon-senate-saas-v2/clawteam_inbox.py:535-589 | each stale running task goes to exactly one of failed and requeued by its attempts, every other task is unchanged, and no stale running task is left |
| Throttle.ThrottleLayer.Process | dragon-senate-saas-v2/bridge_pipeline.py:245-257 | verdict and both queues after a message, trimmed even when it is refused |
| Throttle.ThrottleLayer.Trim | dragon-senate-saas-v2/bridge_pipeline.py:259-262 | the pop loop removes the stale prefix |
| Throttle.QueueIsWindow | dragon-senate-saas-v2/bridge_pipeline.py:245-262 | after trimming a queue equals the window filter of the full admission history |
| Throttle.RefusedOnlyAtLimit | dragon-senate-saas-v2/bridge_pipeline.py:251-254 | in every run a message is refused exactly when the admissions of the last window have used up the node's, else the tenant's, limit |
| Throttle.SlidingWindowLimit | dragon-senate-saas-v2/bridge_pipeline.py:245-262 | no closed interval of window length holds more admissions of a node or tenant than its limit |
| Reliability.ReliabilityLayer.Process | dragon-senate-saas-v2/bridge_pipeline.py:272-285 | prune, membership test and insertion: the verdict and the new table |
| Reliability.DroppedOnlyWithinTtl | dragon-senate-saas-v2/bridge_pipeline.py:272-285 | a message is dropped if and only if its key was let through less than a ttl before; dropped duplicates do not extend that |
| Reliability.PassesAreSpaced | dragon-senate-saas-v2/bridge_pipeline.py:272-280 | two passes of one key are at least a ttl apart |
| RedactionInPlace.Redact | dragon-senate-saas-v2/bridge_pipeline.py:221-232 | the recursive rewrite of dictionaries and lists on the heap returns its argument, which then holds the redacted tree |
| Redaction.ShapeKept | dragon-senate-saas-v2/bridge_pipeline.py:221-232 | off the sensitive keys every path leads to the same place: keys, list lengths and leaves are kept |
| Redaction.NothingSensitiveSurvives | dragon-senate-saas-v2/bridge_pipeline.py:224-225 | a path that ends on a sensitive key, at any depth, leads to the marker or nowhere |
| Redaction.MarkerInPlace | dragon-senate-saas-v2/bridge_pipeline.py:224-225 | every sensitive field of the input is still there and holds the marker text |
| Redaction.CleanIsFixed | dragon-senate-saas-v2/bridge_pipeline.py:221-232 | redaction leaves a payload unchanged if and only if it is clean |
| Redaction.RedactionIsIdempotent | dragon-senate-saas-v2/bridge_pipeline.py:221-232 | redacting twice is redacting once |
| Pipeline.EdgeMessagePipeline.Process | dragon-senate-saas-v2/bridge_pipeline.py:339-370 | the decision and the new state of all layers; a layer that is not reached keeps its state |
| Pipeline.RejectedExactly | dragon-senate-saas-v2/bridge_pipeline.py:199-219 | in every run the policy refuses a message exactly when a required signature is missing, a given one is not that of the node's non-empty secret over the payload, or the node is registered for another tenant |
| Pipeline.DispatchedIfRegistered | dragon-senate-saas-v2/bridge_pipeline.py:300-305 | in every run a delivered message is dispatched exactly when a handler for its kind was registered before |
| Pipeline.HandlersSeeNoSecrets | dragon-senate-saas-v2/bridge_pipeline.py:168-178 | under any of the nine sensitive names, in any case and at any depth, a delivered payload has the marker or nothing |
| Pipeline.LayersRunAlone | dragon-senate-saas-v2/bridge_pipeline.py:339-346 | inside the pipeline limiter and duplicate filter behave as alone on the messages that reach them |
| Pipeline.EndToEndDedupe | dragon-senate-saas-v2/bridge_pipeline.py:339-360 | two deliveries with one idempotency key are at least a ttl apart |
| Pipeline.DuplicateHasOriginal | dragon-senate-saas-v2/bridge_pipeline.py:344-346 | a reported duplicate has an earlier delivery with its key less than a ttl ago |
| Pipeline.KeyIsInjective | dragon-senate-saas-v2/bridge_pipeline.py:53-54 | equal keys of colon-free node ids come from the same node and message |
| Pipeline.KeyClash | dragon-senate-saas-v2/bridge_pipeline.py:53-54 | in general keys are equal exactly for the same node and message, or when one pair continues the other across a colon |
| Pipeline.ForeignDuplicate | dragon-senate-saas-v2/bridge_pipeline.py:53-54 | message b:x of node a and message x of node a:b: the second is dropped as a duplicate |
| Pipeline.HandlersSeeRedactedPayloads | dragon-senate-saas-v2/bridge_pipeline.py:193-232 | a delivered message passed signature and tenant checks, its payload is clean and elsewhere unchanged |
| Pipeline.DeliveryRate | dragon-senate-saas-v2/bridge_pipeline.py:339-360 | end to end, no closed window sees more deliveries of a node or tenant than its limit |
| Alert.AlertRule.Evaluate | dragon-senate-saas-v2/alert_engine.py:472-548 | the new rule fields, the event and the event log after one evaluation |
| Alert.ReadingsDecide | dragon-senate-saas-v2/alert_engine.py:472-548 | over readings, with each comparison written out: exactly a reading beyond the threshold takes a normal rule to pending, and any other reading takes every rule to normal and resolves a firing one |
| Alert.FiresOnReadings | dragon-senate-saas-v2/alert_engine.py:479-548 | a rule starts to fire only after an unbroken stretch of readings beyond the threshold that lasts the pending time |
| Alert.TimesFollowLog | dragon-senate-saas-v2/alert_engine.py:491-510 | the stored times of last firing and last resolution are those in the log |
| Alert.StateFromHistory | dragon-senate-saas-v2/alert_engine.py:472-518 | in every run the state is a closed form of the unbroken breach at the end: none is normal, not sustained is pending with its start recorded, sustained is firing |
| Alert.FiringNeedsSustainedBreach | dragon-senate-saas-v2/alert_engine.py:479-500 | firing starts only after at least two breached evaluations without a gap, the first at least pending_seconds earlier |
| Alert.LogGrammar | dragon-senate-saas-v2/alert_engine.py:472-536 | every log reads as (fired+ resolved)* fired* with firings of an episode a silence apart and resolutions naming the last firing |
| Alert.GrammarMeaning | dragon-senate-saas-v2/alert_engine.py:496-518 | what the grammar means for neighbouring events of a log |
| Alert.LogFollowsState | dragon-senate-saas-v2/alert_engine.py:472-518 | the log's grammar phase is determined by the rule's state, which is never silenced |
| Alert.RefiresAfterSilence | dragon-senate-saas-v2/alert_engine.py:509-518 | a firing, still breached rule fires again exactly when the silence is over |
| Slug.SlugNormalForm | dragon-senate-saas-v2/billing.py:44-46 | a slug is the fallback or 1 to 120 characters of a-z, 0-9, _ and -, not starting with _ |
| Slug.SlugTwice | dragon-senate-saas-v2/billing.py:44-46 | normalising twice equals once if and only if the cut is clean |
| Slug.SlugOfWords | dragon-senate-saas-v2/billing.py:44-46 | the slug of words with other characters between them is the words in lower case joined by single underscores, cut at 120 |
| Slug.NoWordsGiveFallback | dragon-senate-saas-v2/billing.py:44-46 | a text without any word character gives the fallback |
| Billing.BillingService.ResetIfPeriodExpired | dragon-senate-saas-v2/billing.py:388-416 | an expired used trial falls back to the free plan, any other expired row starts a new period, others stay |
| Billing.BillingService.EnsureSubscription | dragon-senate-saas-v2/billing.py:419-455 | the row is created with defaults or rolled over |
| Billing.BillingService.UpsertSubscriptionPlan | dragon-senate-saas-v2/billing.py:516-579 | plan, cycle, status, limits and period change, the used counters stay |
| Billing.BillingService.StartTrial | dragon-senate-saas-v2/billing.py:582-626 | outcome and table for each of not found, already used and started |
| Billing.BillingService.ApplyWebhook | dragon-senate-saas-v2/billing.py:629-683 | the action table over the ensured row, then the plan change |
| Billing.BillingService.EvaluateGuard | dragon-senate-saas-v2/billing.py:950-992 | on the ensured row, allowed exactly when the service is open and reporting the estimates would stay within both limits |
| BillingQuota.GuardExact | dragon-senate-saas-v2/billing.py:969-992 | every answer in terms of the report that would follow: status first, then the run limit, then the token limit |
| Billing.BillingService.Report | dragon-senate-saas-v2/billing.py:1003-1059 | counters and ledger entry of a report, or not found |
| BillingRows.RowsAreRegular | dragon-senate-saas-v2/billing.py:388-626 | in every reachable state each row has a catalog plan with that plan's limits and a cycle of a month or a year |
| BillingRows.EnsureLaw | dragon-senate-saas-v2/billing.py:388-455 | in every run, what a new account starts with, and what a row becomes before and after its period end |
| BillingRows.PlanLaw | dragon-senate-saas-v2/billing.py:516-579 | in every run a plan call leaves the plan, cycle and status its texts name, with the plan's limits and a period from now, and carries usage over |
| BillingRows.EventLaw | dragon-senate-saas-v2/billing.py:639-670 | in every run an event leaves the plan it is named after, else the plan its text names, else the plan there was, with that plan's limits and the usage as it was |
| BillingRows.StartLaw | dragon-senate-saas-v2/billing.py:591-624 | in every run what a trial that starts leaves: a paid plan, zero usage, no renewal, and dates 1 to 60 days apart |
| BillingRows.ReportLaw | dragon-senate-saas-v2/billing.py:1014-1054 | in every run a report adds its positive amounts to the ensured row and one entry with them to the ledger |
| BillingRuns.ExecIsActs | dragon-senate-saas-v2/billing.py:388-1059 | a run of calls equals the run of the row operations it is made of |
| BillingRuns.ActsConserve | dragon-senate-saas-v2/billing.py:388-624 | the same balance for every sequence of row operations, from which usage conservation of call runs follows |
| BillingRuns.UsageConservation | dragon-senate-saas-v2/billing.py:1033-1054 | in every reachable state an account's reported usage equals its counters plus what rollovers and trial starts discarded; plan changes discard nothing |
| BillingQuota.StepWithin | dragon-senate-saas-v2/billing.py:388-1059 | from a state within all limits a call stays within them if and only if it fits: a report has room on the rolled-over row, a plan change has limits that current usage fits, all other calls always |
| BillingQuota.WithinExactly | dragon-senate-saas-v2/billing.py:388-1059 | a run is within every positive limit in all its states if and only if each call fits |
| BillingQuota.QuotaHeld | dragon-senate-saas-v2/billing.py:950-992 | if every report is covered by an allowed guard of the same instant and no plan change lowers a limit, each call fits, so no account exceeds a positive limit in any state, through rollovers, trials and trial expiry |
| BillingQuota.ReservationsHold | dragon-senate-saas-v2/billing.py:950-992 | as long as no call touches an account after an allowed guard, its row is unexpired at that instant and has room for the estimates |
| BillingQuota.PlanChangeIsSafe | dragon-senate-saas-v2/billing.py:563-576 | a plan change is safe for every usage within the old limits if and only if it lowers no limit |
| BillingQuota.RaceExceedsQuota | dragon-senate-saas-v2/billing.py:950-992 | two allowed guards followed by two reports exceed the run limit |
| BillingAccounts.ReportFindsRow | dragon-senate-saas-v2/billing.py:1014-1034 | a report succeeds if and only if the row exists or both ids are cut cleanly |
| BillingAccounts.TrialFindsRow | dragon-senate-saas-v2/billing.py:597-608 | a trial start answers not found exactly without a row and with a spoiled id, and already used exactly on a used trial |
| BillingAccounts.LongIdIsNotFound | dragon-senate-saas-v2/billing.py:1014-1034 | an id of 119 letters, an underscore and a letter, for which report and trial start answer not found |
| BillingAccounts.EnsuredRowIsReached | dragon-senate-saas-v2/billing.py:420-428 | after ensure_subscription a report reaches that very row, whatever the ids |
| BillingTrials.TrialsEnd | dragon-senate-saas-v2/billing.py:388-683 | in all states of a run of calls a running trial ends with its period, 1 to 60 days after its start, and no other row has a trial start, if and only if no plan change or event sets "trialing" on a used trial that is over or has another period end |
| BillingTrials.OneTrial | dragon-senate-saas-v2/billing.py:605-624 | in every run of calls at most one trial start of an account succeeds, and trial_used is set exactly when one did |
| BillingTrialRuns.TrialFallsBack | dragon-senate-saas-v2/billing.py:388-409 | whatever is called in between except plan changes and events on the account, a started trial keeps plan, limits and end until its last day is over, and then the account is on the free plan |
| BillingTrialRuns.UnknownEventMovesTrial | dragon-senate-saas-v2/billing.py:639-670 | every event with an unknown action, on every trial plan, in every run, lets a running trial go on for 30 days from the event |
| BillingTrialRuns.OneDayTrialLastsAMonth | dragon-senate-saas-v2/billing.py:639-670 | a run of three calls in which a one-day trial still runs on its 29th day |
| BillingEvents.ServiceFollowsStanding | dragon-senate-saas-v2/billing.py:516-683 | in every run and at every later time the service is open to an account exactly as the last plan call, known event or successful trial start on it says; time, rollovers, usage and other accounts play no part |
| BillingEvents.ClosedUntilReopened | dragon-senate-saas-v2/billing.py:639-670 | after a failed payment or cancellation the guard answers inactive until a plan call, an opening event or a trial start on the account |
| BillingEvents.TrialReopens | dragon-senate-saas-v2/billing.py:605-624 | a successful trial start opens the service whatever the status was |
| ApiKeys.ApiKeyManager.CreateKey | dragon-senate-saas-v2/api_key_manager.py:120-168 | a row is inserted unless id or digest is taken, and the digest leaves the cache |
| ApiKeys.ApiKeyManager.VerifyKey | dragon-senate-saas-v2/api_key_manager.py:172-224 | verdict, cache and usage tables of a verification, from a fresh entry or from the table |
| ApiKeys.ApiKeyManager.RecordUsage | dragon-senate-saas-v2/api_key_manager.py:226-246 | call counter, last use and daily row |
| ApiKeys.ApiKeyManager.RevokeKey | dragon-senate-saas-v2/api_key_manager.py:296-310 | the row is revoked and every cache entry of the key dropped |
| ApiKeys.ApiKeyManager.RotateKey | dragon-senate-saas-v2/api_key_manager.py:312-344 | nothing on a missing key or a taken id, else the replacement is inserted and the old key revoked |
| ApiKeyFleet.StalenessBound | dragon-senate-saas-v2/api_key_manager.py:172-224 | in every run of any number of processes a valid verdict names the key's row, expired or last revoked less than 60 seconds ago if at all |
| ApiKeyFleet.FormatLaw | dragon-senate-saas-v2/api_key_manager.py:178-208 | a verification answers invalid format exactly for texts that do not start with sk-, and a refused one changes neither tables nor cache |
| ApiKeyFleet.NewKeyVerifies | dragon-senate-saas-v2/api_key_manager.py:137-219 | in every continuation that does not retire it, a created key is valid with its own fields in every process until its expiry is past; after that it is expired, or cached for less than 60 seconds |
| ApiKeyFleet.VerdictWasTrue | dragon-senate-saas-v2/api_key_manager.py:184-219 | every valid verdict is what the table answered to the same process less than 60 seconds earlier |
| ApiKeyFleet.VerdictOrTable | dragon-senate-saas-v2/api_key_manager.py:184-219 | a verdict differs from the table's answer if and only if a fresh entry hides an expiry or a revocation |
| ApiKeyFleet.SoleProcessVerdict | dragon-senate-saas-v2/api_key_manager.py:184-219 | with one process, if and only if a fresh entry hides an expiry |
| ApiKeyFleet.RevocationIsFinal | dragon-senate-saas-v2/api_key_manager.py:296-344 | after revoke or rotate the key is answered as revoked, at once by that process and from 60 seconds on by all |
| ApiKeyFleet.RotationKeepsTerms | dragon-senate-saas-v2/api_key_manager.py:312-344 | in every run tenant, tag and permissions carry over, the new key verifies at any time, and the terms are the same if and only if the old key had no expiry |
| ApiKeyUsage.UsageAccounting | dragon-senate-saas-v2/api_key_manager.py:226-246 | call counter, sum of daily rows and number of valid verdicts of a key are equal in every reachable state |
| ApiKeyUsage.DailyAccounting | dragon-senate-saas-v2/api_key_manager.py:226-241 | the row of a key and a day is the number of valid verdicts of that day |
| ApiKeyUsage.LastUseIsLastGrant | dragon-senate-saas-v2/api_key_manager.py:232-235 | the last use stored with a key is the time of its last valid verdict |
| ApiKeyUsage.RevokedByLastRetirement | dragon-senate-saas-v2/api_key_manager.py:296-344 | a key is revoked exactly if it was ever revoked or rotated, with time and actor of the last such call |
| ApiKeyUsage.CreationLaw | dragon-senate-saas-v2/api_key_manager.py:137-157 | a creation inserts one row with the fields asked for, or changes nothing when id or digest is taken |
| Spans.StripConsumed | dragon-senate-saas-v2/artifact_classifier.py:134-147 | the sort-and-cursor loop returns the characters at the positions no span covers, for any in-bounds spans |
| Spans.FreeMeaning | dragon-senate-saas-v2/artifact_classifier.py:134-147 | those positions are exactly the uncovered ones, each once, increasing |
| Spans.OrderIsIrrelevant | dragon-senate-saas-v2/artifact_classifier.py:45-65 | the result depends on the set of spans only, not on the order in which the patterns found them |
| Attribution.WeightsAreShares | dragon-senate-saas-v2/attribution_engine.py:237-252 | one weight per touchpoint, each between 0 and 1, summing to 1 for every model and positive count |
| Attribution.WeightsByModel | dragon-senate-saas-v2/attribution_engine.py:242-252 | a model's weights are the only list with sum 1 that fits its profile: only the first, only the last, all equal, or equal ends around equal others that share a fifth |
| Attribution.WeightsMirror | dragon-senate-saas-v2/attribution_engine.py:242-252 | reversing a journey exchanges first and last touch and leaves linear and U-shape as they are |
| Attribution.CreditConserved | dragon-senate-saas-v2/attribution_engine.py:161-191 | both rollups sum to the conversion value of the runs with a touchpoint |
| Attribution.RollupByKey | dragon-senate-saas-v2/attribution_engine.py:165-174 | a rollup lists exactly the touched keys, each with the credit it earned over all runs |
| Attribution.Attribute | dragon-senate-saas-v2/attribution_engine.py:153-191 | the loops produce both rollups, ranked, and the weighted points of the first 50 runs |
| Attribution.SortedRollup | dragon-senate-saas-v2/attribution_engine.py:254-259 | every entry once, by falling credit and then by key |
| Attribution.RankedTotal | dragon-senate-saas-v2/attribution_engine.py:185-191 | the ranked lines carry the whole credit of the rollup |
| Attribution.RankedOrder | dragon-senate-saas-v2/attribution_engine.py:254-259 | no line has less credit than a later one, and equals come in dictionary order of their keys |

## Left out

- SQL, sessions, transactions, schema migration and connection errors: a table is a map and a call is atomic. An answer of an ordered SELECT whose ties the database may break either way is an argument constrained by a predicate.
- Inbox columns that no decision reads (row id, payload, worktree path, last error, worker metadata), and the stripping, lower-casing, truncation and default keys (`task_<n>`) of enqueue fields and keys: they happen before the modelled step. A caller-supplied row id that collides with another row's is not modelled.
- Inbox.Inbox.MarkMany: the error text that an acknowledgement may store is not modelled.
- A call that reads the clock several times is modelled with one reading; floating-point and time-zone conversion of clocks are left out. The window, ttl and cache theorems assume a clock that does not run backwards, per process.
- Pipeline: the field mapping of the normalising layer (a message enters normalised or malformed), handler results and exceptions, the blank-type check of `register`, and messages that overlap in time.
- RedactionInPlace.Redact: one dictionary or list used at two places of a payload, or inside itself, is excluded; parsed JSON has neither.
- Lower-casing and word characters are ASCII; Unicode case mapping and the regular expression engine are not modelled.
- Alert rules: metric queries, notification channels and edits of a rule between evaluations.
- Billing: payment providers, provider ids, orders, invoices, the webhook log, cost estimates and two calls on one row at the same time.
- Billing.BillingService.EvaluateGuard: the decision only; the details echoed to the caller are left out.
- API keys: random key material, SHA-256 (any function), the listing and statistics endpoints, and a failed usage update, which the source ignores. Times are integers, where the source compares ISO 8601 texts.
- Artifact classification: the five patterns themselves, and the code, CSV and JSON branches after the removal.
- Attribution: rounding to four places, the SQL selection of at most 500 runs, and stored metadata.
- The routers, streaming endpoints and the other services of the repository: mostly field coercion and plumbing.
