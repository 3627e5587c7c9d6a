# Verified model of the trust services

This project models the stateful cores of the planeon trust services and proves what they guarantee
over whole runs. `dafny verify dfyconfig.toml` checks all of it.

Four systems are modelled.

- **The usage ledger**: reservations, commits, releases, expiry, evaluation, reconciliation and
  retention over eleven resource dimensions, tumbling windows, hard and advisory budgets, idempotency
  keys and append-only logs, for many tenants. `Dimensions` and `UsageModels` hold the values,
  `LedgerSpec` says what each operation computes, `UsageLedgers` is the object that works in place on a
  private copy and publishes it, and is proved to do what `LedgerSpec` says. `LedgerInvariant` states
  what holds of every reachable ledger; `LedgerSequences`, `LedgerSettlement`, `LedgerAdmission` and
  `LedgerRuns` prove that every operation and every run keeps it. `LedgerTheorems`, `LedgerRetries`,
  `TenantSlices` and `TenantIsolation` draw the conclusions. `LedgerExpiry`, `LedgerAnswers` and
  `LedgerCalls` say of every call of a run exactly what it answers and what it changes, in terms of the
  usage entries and live reservations the run has reached.
- **The policy decision path**: an allow-only cache in front of a policy oracle, under a policy manager
  that clears the cache on every change of trust (`DecisionCaches`, `CacheHistories`, `TrustStates`,
  `PolicyManagers`, `DecisionServices`, `DecisionTheorems`, `DecisionCalls`, `DecisionAnswers`).
- **Guardrail streams**: numbered streaming sessions coupled by a callback to the manager of signed
  profiles (`Streams`, `StreamRegistries`, `ProfileManagers`, `GuardrailSteps`, `GuardrailServices`,
  `GuardrailTheorems`, `GuardrailRecords`, `GuardrailAnswers`).
- **Bounded telemetry**: a buffer with two bounds, two evictable priorities and audit records that may
  not be lost, and the guard on attribute cardinality (`TelemetryBuffers`, `TelemetryTheorems`,
  `CardinalityGuards`).

Conventions of the model:

- Times are whole seconds; the services refuse any other clock value.
- A digest is the value it is taken of, so equal digests mean equal values. Ids that the services cut
  from digests are the request values too; reserve, transition and expiry requests are different
  constructors.
- An exception with a reason code is a refusal value. Internal failures (a missing dictionary key, a
  counter below zero) are modelled as refusals of their own, and proved not to happen.
- Each locked method, and each service call, is one atomic step. Whether the store fails, what the
  oracle answers and what the detectors say are arbitrary inputs of the step; the oracle's answers only
  satisfy what its response parser checks.
- A Python dictionary whose order matters is a sequence of entries with distinct keys; the others are
  maps. Text content is its byte encoding, and a running hash is the bytes it has consumed.
- A retention finding advances a tenant's clock without expiring anything, so `ClosedWindowsDrain` speaks
  of the operations that run the expiry loop.
- A run is any sequence of steps from the empty state. Tenants, budgets, policies, clocks and failures
  are not bounded in any theorem.

Three properties one might expect do not hold of the code, and are stated as they are:

- A refused append to the telemetry buffer can still evict: `DroppedButEvicting` gives a case, and
  `RefusedChangesNothingExactly` says exactly when it does not.
- An allow can be served from the decision cache although the decision that put it there was never
  recorded, because the cache is filled before the store commits: `UnrecordedGrantIsServed` gives a
  case, `ServedGrantIsOnRecordExactly` says exactly when the grant behind a hit is on record, and
  `EveryServedGrantIsOnRecord` that it always is in runs without store failures.
- A push or finish that is refused can still have been taken, because the stream moves on before the record is
  committed: `AnswerIsLost` gives a case, `TakenWithoutAnswerExactly` says exactly when that
  happens, `NumbersAreNeverReused` that the chunk cannot be sent again, and `FinishIsFinal` the same of
  the report of a finish.

## Model

| member | source | states |
|---|---|---|
| `Dimensions.AddDimensions` | src/planeon_trust/usage/dimensions.py:64-71 | Accumulating with an overflow check after every single addition gives the same answer as one check of the grand total of the vectors. |
| `Dimensions.NormalizeDimensions` | src/planeon_trust/usage/dimensions.py:41-61 | The loop over the supplied names, in any order, accepts exactly known names with amounts in range and under the public maxima (and one positive amount where required) and fills the rest with zero; otherwise it refuses with the caller's code. |
| `Dimensions.SubtractDimensions` | src/planeon_trust/usage/dimensions.py:74-78 | Succeeds exactly when no counter would go below zero, and then undoes the addition. |
| `Dimensions.ExceededNames` | src/planeon_trust/usage/dimensions.py:81-82 | A dimension is named as exceeded exactly when its value is over its limit. |
| `Dimensions.ExceededNamesThoseOver` | src/planeon_trust/usage/dimensions.py:81-82 | The names listed are those of exactly the dimensions over their limit, each once, in the order of the dimensions. |
| `Dimensions.NormalizedExactly` | src/planeon_trust/usage/dimensions.py:11-61 | Amounts are accepted exactly when there is at least one (a positive one where required), all go by one of the eleven names and each is within its maximum, all written out; the vector holds them in the order of the names. |
| `UsageModels.DefineBudget` | src/planeon_trust/usage/models.py:69-103 | A budget is defined exactly when its scope type, window, threshold, lifetime and retention are in range and its limits are acceptable; it then has the supplied values, with unnamed limits zero; otherwise the code is that of the first check that fails. |
| `UsageModels.WindowAt` | src/planeon_trust/usage/models.py:105-111 | Fails exactly before the epoch; otherwise the window returned contains the moment. |
| `UsageModels.WindowIsUnique` | src/planeon_trust/usage/models.py:105-111 | A moment lies in exactly one tumbling window of a budget: any window that contains it has the index `window_at` computes. |
| `UsageLedgers.LedgerState.Copy` | src/planeon_trust/usage/ledger.py:57-71 | The copy is a new object with the same contents, so working on it cannot touch the published state. |
| `UsageLedgers.SumCommitted` | src/planeon_trust/usage/ledger.py:551-557 | The running, checked sum over usage entries equals one check of the full total of the entries of that window. |
| `UsageLedgers.SumReserved` | src/planeon_trust/usage/ledger.py:558-566 | The same for live reservations of that window. |
| `UsageLedgers.UsageLedger.Recomputed` | src/planeon_trust/usage/ledger.py:551-566 | Refines the specification's recomputation, with the committed total checked before the reserved one. |
| `UsageLedgers.UsageLedger.MarkReconciled` | src/planeon_trust/usage/ledger.py:580-584 | Records a match exactly when stored and recomputed aggregates have the same digest, and changes nothing else. |
| `UsageLedgers.UsageLedger.BudgetState` | src/planeon_trust/usage/ledger.py:586-601 | Refines the specification's order of states: suspended, reset pending, exhausted, warning, available. |
| `UsageLedgers.UsageLedger.ExpireDue` | src/planeon_trust/usage/ledger.py:487-513 | The loop over a snapshot of the dictionary, while the dictionary changes, settles exactly the due reservations of the tenant in insertion order; the first failure is raised. |
| `UsageLedgers.UsageLedger.Publish` | src/planeon_trust/usage/ledger.py:619-625 | The candidate becomes the published state unless the store fails, in which case the old one stays. |
| `UsageLedgers.UsageLedger.AddBudget` | src/planeon_trust/usage/ledger.py:82-92 | Refines the add-budget step: a repeated identical definition is accepted, a different one refused, budgets are never replaced. |
| `UsageLedgers.UsageLedger.Reserve` | src/planeon_trust/usage/ledger.py:94-193 | Refines the reserve step on every path: replay, conflict, look-up errors, suspension, lifetime, window, overflow, hard denial with its published audit record, grant, store failure. |
| `UsageLedgers.UsageLedger.Commit` | src/planeon_trust/usage/ledger.py:195-218 | Refines the commit step, including the refusal of malformed amounts before anything else. |
| `UsageLedgers.UsageLedger.Release` | src/planeon_trust/usage/ledger.py:220-237 | Refines the release step. |
| `UsageLedgers.UsageLedger.Transition` | src/planeon_trust/usage/ledger.py:399-485 | Refines the shared transition step on every path, and leaves the published state object itself unmodified. |
| `UsageLedgers.UsageLedger.Evaluate` | src/planeon_trust/usage/ledger.py:239-287 | Refines the evaluate step, which publishes only if the clock or an expiry changed the candidate. |
| `UsageLedgers.UsageLedger.Reconcile` | src/planeon_trust/usage/ledger.py:309-339 | Refines the reconcile step. |
| `UsageLedgers.UsageLedger.RetentionDue` | src/planeon_trust/usage/ledger.py:341-370 | Refines the retention step, which advances the clock and expires nothing. |
| `UsageLedgers.UsageLedger.Perform` | src/planeon_trust/usage/ledger.py:82-370 | Whichever locked method is called, the object makes exactly the specification's step, so what is proved of runs holds of the object. |
| `LedgerSettlement.SettleKeeps` | src/planeon_trust/usage/ledger.py:443-484 | Settling any live reservation cannot fail and keeps the whole invariant: distinct ids, transitions that fit their reservations, bound keys, exact logs, books equal to recomputation, caps, matching marks. |
| `LedgerAdmission.AdmitKeeps` | src/planeon_trust/usage/ledger.py:183-191 | Booking a reservation that has room cannot fail and keeps the whole invariant. |
| `LedgerAdmission.NoSuchReservation` | src/planeon_trust/usage/ledger.py:163-184 | Under an unused idempotency key the new reservation id is unused too, so no reservation is ever overwritten. |
| `LedgerRuns.ExpiryKeeps` | src/planeon_trust/usage/ledger.py:487-513 | From any sound ledger the expiry loop never fails, keeps the invariant, touches no other tenant, and afterwards nothing of the tenant is due. |
| `LedgerRuns.PrepareKeeps` | src/planeon_trust/usage/ledger.py:603-617 | Preparing a candidate fails exactly when the clock would go backwards. |
| `LedgerRuns.StepKeeps` | src/planeon_trust/usage/ledger.py:82-370 | Every operation keeps the invariant, only extends the ledger, changes only its own tenant's slice, and never ends in a missing key or a counter below zero. |
| `LedgerRuns.RunKeeps` | src/planeon_trust/usage/ledger.py:82-370 | So does every run, of any length, with any store failures. |
| `LedgerTheorems.IndexEqualsRecomputation` | src/planeon_trust/usage/ledger.py:183-191 | In every reachable ledger the stored aggregate of every window of every budget, or zeros where none is stored, equals the recomputation from usage entries and live reservations, which never overflows. |
| `LedgerTheorems.NeverMismatched` | src/planeon_trust/usage/ledger.py:580-594 | No run ever stores or reports a mismatch, and no budget ever waits for a window reset. |
| `LedgerTheorems.TotalsAreSafe` | src/planeon_trust/usage/ledger.py:157 | In every reachable ledger committed plus reserved of every window of every budget, advisory ones included, is a safe integer in all dimensions, and the state of the budget can be computed. |
| `LedgerTheorems.ReconcileReportsMatch` | src/planeon_trust/usage/ledger.py:309-339 | Every reconciliation, at any point of any run, reports a match. |
| `LedgerTheorems.HardCapsHold` | src/planeon_trust/usage/ledger.py:155-162 | In every reachable ledger, committed plus reserved of every window of every hard budget is within the limit in all eleven dimensions. |
| `LedgerTheorems.NoInternalFailure` | src/planeon_trust/usage/ledger.py:443-446 | No operation of any run hits a missing dictionary key or drives a counter below zero, and commit, release and reconcile never overflow. |
| `LedgerTheorems.TransitionsAreTimely` | src/planeon_trust/usage/ledger.py:426-441 | Commits and releases happen from creation on and strictly before expiry, which is no later than the window's end; expiries happen at or after it; each tenant's transitions are in time order. |
| `LedgerTheorems.UsageIsBookedWhereItHappened` | src/planeon_trust/usage/ledger.py:464-479 | Every usage entry is booked in the window in which it was recorded. |
| `LedgerTheorems.ClosedWindowsAreFrozen` | src/planeon_trust/usage/ledger.py:155-164 | Once a tenant's clock has reached a window's end, no later step of any run adds usage to it or changes its committed totals. |
| `LedgerTheorems.ClosedWindowsDrain` | src/planeon_trust/usage/ledger.py:487-513 | After the tenant's next published step that runs the expiry loop, the reserved totals of its closed windows are zero and stay zero. |
| `LedgerTheorems.HistoryOnlyGrows` | src/planeon_trust/usage/ledger.py:640-665 | All logs only grow by appending; budgets and key bindings never change; clocks never go back; a settled reservation never changes again. |
| `LedgerTheorems.SettledExactlyOnce` | migrations/usage/001_usage.sql:62 | A reservation has a transition exactly when it has left the reserved state, in that state, and no two transitions name the same reservation. |
| `LedgerTheorems.UsageIsWhatWasCommitted` | migrations/usage/001_usage.sql:80 | Usage entries are the committed transitions, one each, in order, with the committed amounts and times. |
| `LedgerTheorems.OutboxIsExact` | src/planeon_trust/usage/ledger.py:628-665 | The outbox announces each reservation once and each transition once, in order, and is the audit log without its denials. |
| `LedgerRetries.OneReservationPerKey` | src/planeon_trust/usage/ledger.py:141-147 | For each tenant and idempotency key at most one reservation ever exists. |
| `LedgerRetries.OneTransitionPerKey` | src/planeon_trust/usage/ledger.py:428-433 | For each tenant and key at most one commit and at most one release ever exists. |
| `LedgerRetries.ReserveRetry` | src/planeon_trust/usage/ledger.py:141-147 | After a reserve call has shown a reservation, any later call with its key, at any point of the run, leaves the ledger untouched; with the same terms it shows the same reservation id, with others it is refused. |
| `LedgerRetries.TransitionRetry` | src/planeon_trust/usage/ledger.py:428-433 | A retried commit or release shows exactly the original transition and changes nothing; another request under the key is refused. |
| `LedgerRetries.EvaluatePredictsReserve` | src/planeon_trust/usage/ledger.py:253-286 | If an evaluation returns, a reserve call with the same terms, a fresh key and a valid lifetime, from the ledger before or after it, is granted exactly when the evaluation said allowed, with the same exceeded dimensions, and is otherwise refused as suspended or exceeded. |
| `LedgerRetries.OverflowIsTheRequests` | src/planeon_trust/usage/ledger.py:155-157 | A reserve call overflows only if its own amounts do not fit on top of what the window already holds. |
| `LedgerRetries.EvaluationOverflowIsTheRequests` | src/planeon_trust/usage/ledger.py:265-269 | An evaluation overflows only if the amounts it was asked about do not fit on top of what the window already holds. |
| `LedgerExpiry.PreparationIsExact` | src/planeon_trust/usage/ledger.py:487-513 | Preparing a candidate in any run fails exactly when the clock would go back; otherwise it sets the clock, turns exactly the tenant's live reservations with `expires_at <= now` into expired ones, appends one system transition and one usage.expired event for each, and changes no budget, usage entry, key or finding. |
| `LedgerExpiry.PreparedTotals` | src/planeon_trust/usage/ledger.py:491-497 | The stored totals of the candidate are what the usage entries of the window add up to, and what its reservations still live at that time hold. |
| `LedgerExpiry.PreparationTouches` | src/planeon_trust/usage/ledger.py:493-513 | The stored totals of exactly the windows that lose a reservation get the time of the call, and exactly those windows are newly marked. |
| `LedgerAnswers.ReserveIsExact` | src/planeon_trust/usage/ledger.py:117-193 | The one answer of a reserve call under a fresh key, with every refusal in order. Once the budget is found and enabled, the lifetime valid and the window begun, the sums are usage entries plus live reservations, each once, plus the request: unsafe sums overflow, a hard budget with a sum over its limit refuses, and otherwise the reservation is shown with the names of exactly the dimensions over their limit and the budget state that follows from the sums. |
| `LedgerAnswers.ReserveReplayIsExact` | src/planeon_trust/usage/ledger.py:141-147 | Under a bound key nothing changes: the stored reservation is shown as it is by now with the state of its budget by now, or the call is refused if its request is another. |
| `LedgerAnswers.CommitIsExact` | src/planeon_trust/usage/ledger.py:407-485 | The one answer of every commit: it goes through exactly when the amounts are acceptable, the reservation is the tenant's own, neither settled nor overdue, at least as large, and the store works; each other case has its own code, and a retry shows the stored transition. |
| `LedgerAnswers.ReleaseIsExact` | src/planeon_trust/usage/ledger.py:407-485 | The same for every release, which observes nothing and keeps the caller's reason. |
| `LedgerAnswers.EvaluateIsExact` | src/planeon_trust/usage/ledger.py:250-287 | The one answer of every evaluation: projected totals are usage entries plus live reservations plus the amounts asked about, `allowed` holds exactly for an enabled budget that is advisory or has no total over its limit, the state is that of the window without the request, and a failing store matters only if the ledger was not up to date. |
| `LedgerAnswers.ReconcileIsExact` | src/planeon_trust/usage/ledger.py:313-339 | The one answer of every reconciliation: both digests are what the window that contains the time of the call holds, the finding is a match and is appended, that window is marked, and nothing else changes beyond clock and expiry. |
| `LedgerAnswers.RetentionIsExact` | src/planeon_trust/usage/ledger.py:345-370 | The one answer of every retention call: the cutoff is the index of the current window minus the retained windows, the history is every usage entry of the budget up to it, in order, it is due exactly when there is one, and only the clock and the findings change. |
| `LedgerAnswers.AddBudgetIsExact` | src/planeon_trust/usage/ledger.py:82-92 | A budget is added once; the same definition again is accepted and changes nothing, another one under its name is refused. |
| `LedgerAnswers.MarksAreHonest` | src/planeon_trust/usage/ledger.py:580-584 | For any ledger, sound or not, a window is marked as matching exactly when what is stored for it, under its own name, is what its usage entries and reserved reservations add up to. |
| `LedgerAnswers.FindingsAreHonest` | src/planeon_trust/usage/ledger.py:320-335 | For any ledger a reconciliation reports a match exactly in that case. |
| `LedgerAnswers.ResetPendingExactly` | src/planeon_trust/usage/ledger.py:587-594 | For any ledger an enabled budget with safe totals is waiting for a reset exactly when an earlier window of it is marked as mismatching. |
| `LedgerCalls.GrantIsTheRequest` | src/planeon_trust/usage/ledger.py:163-193 | A reserve call under a new key that shows a reservation has moved the clock, expired exactly what was overdue, appended exactly that reservation with every field as asked for, bound its key, and announced it in one event in the caller's name; of all windows of the tenant only its own has grown, by what was asked for. |
| `LedgerCalls.CommitIsTheRequest` | src/planeon_trust/usage/ledger.py:448-485 | A commit under a new key that shows a transition has settled one live reservation of the tenant that was large enough, appended exactly that transition and one usage entry with the amounts named, bound the commit key and added one usage.committed event; its window has the amounts booked and what the reservation held given back. |
| `LedgerCalls.ReleaseIsTheRequest` | src/planeon_trust/usage/ledger.py:229-237 | A release under a new key that shows a transition has settled one live reservation of the tenant as released, with zero observed and the caller's reason and time, bound the release key and added one usage.released event; no usage entry is added, all committed totals stay, and the reserved totals of its window fall by what it held. |
| `LedgerCalls.RefusalsChangeNothing` | src/planeon_trust/usage/ledger.py:138-162 | Every refused call of any run leaves the ledger exactly as it was, clock and expiries included, except that a suspended or exceeded budget publishes the caught-up ledger with one denial of this very request, caller and time on the audit log and nothing else. |
| `LedgerCalls.RetentionIsFinal` | src/planeon_trust/usage/ledger.py:341-370 | After a retention call has shown a finding, the usage history of the budget up to its cutoff never changes again in the run, and any later finding with that cutoff shows the same history. |
| `TenantIsolation.PrepareOfSlice` | src/planeon_trust/usage/ledger.py:487-513 | Preparing a candidate does the same inside a tenant's slice as in the whole ledger. |
| `TenantIsolation.StepOfSlice` | src/planeon_trust/usage/ledger.py:82-370 | Every operation of a tenant, with its response, does the same in the tenant's slice as in the whole ledger. |
| `TenantIsolation.OtherTenantsAreInvisible` | src/planeon_trust/usage/ledger.py:424-513 | Erasing every operation of other tenants from any run changes neither the tenant's slice of any record, index, log, clock or mark, nor any response it gets. |
| `TenantIsolation.NonInterference` | src/planeon_trust/usage/ledger.py:137-193 | Two runs that agree on one tenant's operations look the same to that tenant. |
| `DecisionCaches.DecisionCache.Get` | src/planeon_trust/common/cache.py:35-44 | Returns the entry only while it lives and makes it the most recently used; an expired entry is removed. |
| `DecisionCaches.DecisionCache.Put` | src/planeon_trust/common/cache.py:46-54 | Only allows with a lifetime in range are stored, as the most recently used entry; the eviction loop leaves exactly the newest entries within the bound. |
| `DecisionCaches.DecisionCache.Clear` | src/planeon_trust/common/cache.py:56-58 | Leaves the cache empty. |
| `DecisionCaches.MakeCache` | src/planeon_trust/common/cache.py:27-33 | A cache is made exactly when both bounds are in range. |
| `CacheHistories.LookupIsLeastRecentlyUsed` | src/planeon_trust/common/cache.py:35-58 | After any history of calls a look-up finds only the latest accepted put since the last clear, before it expires; if no earlier call had a later clock, it misses only for want of such a put, for expiry, or because at least as many other keys as the cache holds were used since. The bound is never exceeded. |
| `DecisionCalls.ItemsAreContents` | src/planeon_trust/common/decision.py:111-137 | The cached items of a run of decisions and changes of trust are what its look-ups, puts and clears leave. |
| `DecisionCalls.ServiceCacheIsLeastRecentlyUsed` | src/planeon_trust/common/decision.py:113-137 | In any run of the service a hit is the latest allow put under its key since trust last changed, before it expires; if no earlier cache call had a later clock, a miss means there was none, it expired, or as many other keys as the cache holds were used since. |
| `CacheHistories.FetchIsExact` | src/planeon_trust/common/cache.py:35-44 | After any history of calls a look-up moves the item it finds to the end, takes out an expired one, and touches no other. |
| `CacheHistories.StoreIsExact` | src/planeon_trust/common/cache.py:46-54 | After any history of calls a put of an allow that lasts at least a second and at most the maximum replaces the item under its key as the last one, and where there is none drops the first item if the cache is full; any other put changes nothing. |
| `PolicyManagers.PolicyManager.Activate` | src/planeon_trust/common/policy.py:227-245 | Accepts exactly an unrevoked artifact in force that is the first version or the direct successor of the active one, and clears the cache; a refusal changes nothing. |
| `PolicyManagers.PolicyManager.Active` | src/planeon_trust/common/policy.py:247-261 | Answers with the active policy only in force and unrevoked; an expired one clears the cache. |
| `PolicyManagers.PolicyManager.Revoke` | src/planeon_trust/common/policy.py:263-271 | The digest is revoked, drops out of active and last known good, and the cache is cleared. |
| `PolicyManagers.PolicyManager.Rollback` | src/planeon_trust/common/policy.py:273-282 | The last known good becomes active only if unrevoked and in force, and the cache is cleared; otherwise nothing changes. |
| `DecisionServices.DecisionService.Decide` | src/planeon_trust/common/decision.py:97-186 | Refines the decide step: policy first, then a look-up for queries that do not mutate, then the oracle, then the cache, then one atomic record. |
| `DecisionServices.DecisionService.Perform` | src/planeon_trust/common/decision.py:90-186 | Decisions and calls to the coupled policy manager make exactly the specification's steps. |
| `DecisionTheorems.TrustIsCoherent` | src/planeon_trust/common/policy.py:227-282 | In every run nothing trusted is revoked, the active policy directly succeeds the last known good one, and every cached key carries the digest active for its tenant. |
| `DecisionTheorems.RevokedIsNeverActive` | src/planeon_trust/common/policy.py:263-282 | After a revocation the digest is never active or last known good again, whatever is activated or rolled back. |
| `DecisionTheorems.NoDecisionUnderRevoked` | src/planeon_trust/common/decision.py:102-137 | No later decision of that tenant, cached or not, is made under a revoked digest. |
| `DecisionTheorems.CachedAllowsAreJustified` | src/planeon_trust/common/decision.py:107-137 | Every allow served from the cache was given by the oracle earlier in the run to the same tenant and subject for the same query under the same policy, with no change of trust since; it has the same obligations and ends at the same moment as the original grant. |
| `DecisionTheorems.DeliveredIsRecorded` | src/planeon_trust/common/decision.py:138-186 | A decision is handed out exactly when it has been recorded, in the same order; it expires after it was made, and a cache hit is an allow for a query that does not mutate. |
| `DecisionTheorems.ServedGrantIsOnRecordExactly` | src/planeon_trust/common/decision.py:107-185 | Behind every allow served from the cache stands the event that asked the oracle for it; its grant, with the same obligations and the same end, is on record, and still is when the allow is served, exactly when the store did not fail at that event. |
| `DecisionTheorems.EveryServedGrantIsOnRecord` | src/planeon_trust/common/decision.py:107-185 | In a run without store failures, every allow served from the cache has on record, before it, an answer of the oracle for the same tenant, subject, query and policy, with the same obligations and the same end. |
| `DecisionTheorems.UnrecordedGrantIsServed` | src/planeon_trust/common/decision.py:130-185 | A run in which an allow whose commit failed is nevertheless served later from the cache, with no earlier record. |
| `DecisionAnswers.DecisionsAreExact` | src/planeon_trust/common/decision.py:97-211 | The one answer of every decision of any run. Without a policy in force it is refused with that policy's code. Otherwise, if the store works, it is decided and recorded: from a cached item that lasts, with the item's obligations and end; else as the oracle answered, allowed exactly when the oracle answered and allowed, denials and each failure with their own reason and no longer than a second, an allow for its lifetime, and never beyond the policy. |
| `DecisionAnswers.FreshAllowsAreTheOracles` | src/planeon_trust/common/decision.py:118-186 | Every allow on record that is no cache hit stems from an event of the run, for the same subject, query and time, whose own oracle answer allowed it with the same obligations. |
| `DecisionAnswers.AllowIsCachedExactly` | src/planeon_trust/common/decision.py:130-137 | After a decision without a hit, the cache holds an allow for its query exactly when the query does not mutate and the oracle allowed it for at least a second and at most the cache's maximum, and then for exactly that long. |
| `DecisionAnswers.RevokedExactly` | src/planeon_trust/common/policy.py:263-271 | In every run a digest is revoked for a tenant exactly when the tenant has revoked it somewhere in the run. |
| `DecisionAnswers.ActivationIsExact` | src/planeon_trust/common/policy.py:227-245 | The one answer of every activation of any run: a policy in force that was never revoked is activated exactly as version 1 without predecessor, or as the next version that names the active one, which becomes the last known good; each other case has its own code and changes nothing. |
| `DecisionAnswers.RevocationIsExact` | src/planeon_trust/common/policy.py:263-271 | A revocation always succeeds, takes the digest out of both places at once, remembers it, and empties the cache. |
| `DecisionAnswers.RollbackIsExact` | src/planeon_trust/common/policy.py:273-282 | A rollback restores the last known good policy exactly when there is one and it is in force, and leaves no last known good behind; otherwise it is refused and changes nothing. |
| `DecisionAnswers.ProbeIsExact` | src/planeon_trust/common/policy.py:247-261 | Asking for the active policy shows it exactly while it is in force; finding it expired empties the cache. |
| `ProfileManagers.ProfileManager.Activate` | src/planeon_trust/guardrails/profiles.py:218-237 | Accepts exactly an unrevoked artifact in force that is the first of its name or a strictly later successor of the active one, and expires its open streams; a refusal changes nothing. |
| `ProfileManagers.ProfileManager.Active` | src/planeon_trust/guardrails/profiles.py:239-253 | Answers with the active profile only in force and unrevoked; an expired one expires its open streams. |
| `ProfileManagers.ProfileManager.Revoke` | src/planeon_trust/guardrails/profiles.py:255-263 | The digest is revoked, drops out of active and last known good, and the open streams of the profile are expired. |
| `ProfileManagers.ProfileManager.Rollback` | src/planeon_trust/guardrails/profiles.py:265-274 | The last known good becomes active only if unrevoked and in force, and the open streams of the profile are expired. |
| `StreamRegistries.StreamRegistry.ExpireAndPrune` | src/planeon_trust/guardrails/streaming.py:217-229 | In place, sessions idle for a minute are closed and sessions closed for two minutes are removed; all others are untouched. |
| `StreamRegistries.StreamRegistry.ExpireProfile` | src/planeon_trust/guardrails/streaming.py:179-189 | Exactly the open sessions of the profile are closed, as of when they were last seen. |
| `StreamRegistries.StreamRegistry.Lookup` | src/planeon_trust/guardrails/streaming.py:195-208 | Finds the session only if it is open after expiry and pruning, and names its state otherwise. |
| `StreamRegistries.StreamRegistry.Create` | src/planeon_trust/guardrails/streaming.py:75-101 | A session is opened only for a streaming profile of the tenant and only below the capacity. |
| `StreamRegistries.StreamRegistry.Push` | src/planeon_trust/guardrails/streaming.py:103-144 | An accepted push advances exactly its own session, or ends it on a stopping verdict, and reports the content so far. |
| `StreamRegistries.StreamRegistry.Finish` | src/planeon_trust/guardrails/streaming.py:146-172 | An accepted finish reports the content so far and leaves the session finished and empty. |
| `GuardrailServices.GuardrailService.CreateStream` | src/planeon_trust/guardrails/service.py:82-92 | Refines the create step over both coupled objects. |
| `GuardrailServices.GuardrailService.PushStream` | src/planeon_trust/guardrails/service.py:94-130 | Refines the push step: find the stream, then its active profile, then push, then record; a failed record comes after the stream has moved on. |
| `GuardrailServices.GuardrailService.FinishStream` | src/planeon_trust/guardrails/service.py:132-164 | Refines the finish step in the same order. |
| `GuardrailServices.GuardrailService.Perform` | src/planeon_trust/guardrails/service.py:82-164 | Streaming calls and calls to the coupled profile manager make exactly the specification's steps. |
| `GuardrailTheorems.StreamsArePinned` | src/planeon_trust/guardrails/streaming.py:75-101 | In every run every open session carries the digest active for its tenant and profile, trust states are coherent, no tenant has more than 128 open streams, and sessions that are not open hold no content. |
| `GuardrailTheorems.RevokedIsNeverActive` | src/planeon_trust/guardrails/profiles.py:255-274 | After a revocation the digest is never active again and no stream under it is open. |
| `GuardrailTheorems.ProfileNeverChanges` | src/planeon_trust/guardrails/streaming.py:211-215 | No streaming call of any run is refused because the profile changed under the stream. |
| `GuardrailTheorems.PushesAreNumbered` | src/planeon_trust/guardrails/streaming.py:116-144 | Accepted sequence numbers are 1, 2, 3, ...; the k-th push reports the first k chunks put together and their byte count; accepted steps are less than a minute apart; a stopping verdict ends the stream. |
| `GuardrailTheorems.FinishReportsAll` | src/planeon_trust/guardrails/streaming.py:158-172 | A finish takes the next number, reports everything that was pushed, and ends the stream. |
| `GuardrailTheorems.PushIsAcceptedExactly` | src/planeon_trust/guardrails/service.py:94-119 | A push is accepted if and only if it has content, the stream is open and not idle for a minute, its profile is in force, and the number is the next one. |
| `GuardrailTheorems.FinishIsAcceptedExactly` | src/planeon_trust/guardrails/service.py:132-164 | A finish is accepted if and only if the stream is open and not idle for a minute, its profile is in force, and the number is the next one. |
| `GuardrailRecords.DeliveredIsRecorded` | src/planeon_trust/guardrails/service.py:178-253 | The evaluations handed out in a run are exactly the records, in order. |
| `GuardrailRecords.TakenWithoutAnswerExactly` | src/planeon_trust/guardrails/service.py:109-164 | A push or finish moves its session on without an evaluation being handed out if and only if the store fails, a push has content, the stream is open and not idle for a minute, its profile is in force, and the number is the next one; the reply is then the failed commit, nothing is recorded, and a finish or a stopping verdict has ended the stream. |
| `GuardrailRecords.NumbersAreNeverReused` | src/planeon_trust/guardrails/service.py:109-129 | Once a push has been accepted, answered or not, no push with its number or a smaller one is accepted on the stream again, as long as the identifier is not drawn again. |
| `GuardrailRecords.FinishIsFinal` | src/planeon_trust/guardrails/service.py:140-164 | Once a finish has been accepted, answered or not, no push and no finish is accepted on its stream again, as long as the identifier is not drawn again. |
| `GuardrailRecords.AnswerIsLost` | src/planeon_trust/guardrails/service.py:109-129 | A run in which a chunk is taken and judged, its record fails, the caller is refused, and sending the chunk again is not accepted. |
| `GuardrailTheorems.ClosedStaysClosed` | src/planeon_trust/guardrails/streaming.py:195-215 | A stream that is not open accepts no further step, as long as its identifier is not drawn again. |
| `GuardrailAnswers.StepsAreExact` | src/planeon_trust/guardrails/service.py:94-164 | The one answer of every push and finish of any run, with every refusal in order, and exactly what it leaves of all sessions: idle ones closed after a minute, closed ones forgotten after two, those of an expired profile closed, and its own moved on as the verdict demands. |
| `GuardrailAnswers.DenialsEndTheStream` | src/planeon_trust/guardrails/streaming.py:125-135 | An accepted push with verdict deny, quarantine or fail-closed error leaves its session terminated and empty, and no later step is accepted on it until the identifier is drawn again. |
| `GuardrailAnswers.OthersKeepItOpen` | src/planeon_trust/guardrails/streaming.py:136-138 | An accepted push with verdict allow, redact or fail-open error leaves its session open, with the chunk added and the next number. |
| `GuardrailAnswers.CreateIsExact` | src/planeon_trust/guardrails/streaming.py:75-101 | The one answer of every stream creation of any run: it succeeds exactly when a profile for streaming is in force and fewer than 128 streams of the tenant are open and not idle for a minute; the new session is pinned to that profile and starts at number 1. |
| `GuardrailAnswers.RevokedExactly` | src/planeon_trust/guardrails/profiles.py:255-263 | In every run a digest is revoked for a profile exactly when it was revoked somewhere in the run. |
| `GuardrailAnswers.ActivationIsExact` | src/planeon_trust/guardrails/profiles.py:218-237 | The one answer of every activation of any run: a profile in force that was never revoked is activated exactly as the first of its name without predecessor, or with a greater version that names the active one, which becomes the last known good; the open streams of the profile are then closed, and each other case has its own code and changes nothing. |
| `GuardrailAnswers.RevocationIsExact` | src/planeon_trust/guardrails/profiles.py:255-263 | A revocation always succeeds, takes the digest out of both places at once, remembers it, and closes the open streams of the profile. |
| `GuardrailAnswers.RollbackIsExact` | src/planeon_trust/guardrails/profiles.py:265-274 | A rollback restores the last known good profile exactly when there is one and it is in force; otherwise it is refused and changes nothing. |
| `GuardrailAnswers.QueryIsExact` | src/planeon_trust/guardrails/profiles.py:239-253 | Asking for the active profile shows it exactly while it is in force; finding it expired closes its open streams. |
| `TelemetryBuffers.MakeBuffer` | src/planeon_trust/usage/telemetry.py:132-145 | A buffer is made exactly when all three limits are in range. |
| `TelemetryBuffers.TelemetryBuffer.Append` | src/planeon_trust/usage/telemetry.py:152-174 | Oversized records touch nothing; otherwise age expiry, eviction and the append leave exactly the declared records, the byte counter is their true sum, both bounds hold, and saturation is remembered. |
| `TelemetryBuffers.TelemetryBuffer.ExpireNonAudit` | src/planeon_trust/usage/telemetry.py:180-190 | Exactly the non-audit records older than the age limit go, and the byte counter is recomputed. |
| `TelemetryBuffers.TelemetryBuffer.MakeRoom` | src/planeon_trust/usage/telemetry.py:163-171 | The eviction loop ends, and leaves what the least sufficient number of evictions leaves. |
| `TelemetryBuffers.TelemetryBuffer.DropCandidate` | src/planeon_trust/usage/telemetry.py:192-197 | The candidate is the first low record, or else the first normal one; there is none only if all that is left is audit. |
| `TelemetryTheorems.EvictionByPriority` | src/planeon_trust/usage/telemetry.py:192-197 | Evicting n records takes the first n low ones in arrival order, then the first normal ones, and never an audit record. |
| `TelemetryTheorems.EvictionIsExact` | src/planeon_trust/usage/telemetry.py:163-171 | No smaller number of evictions would make room; if none does, only audit records remain and the newcomer is not added. |
| `TelemetryTheorems.AuditIsNeverLost` | src/planeon_trust/usage/telemetry.py:152-190 | Over any run the buffered audit records are exactly the accepted ones, in order. |
| `TelemetryTheorems.BoundsHold` | src/planeon_trust/usage/telemetry.py:163-174 | Both bounds hold after every run. |
| `TelemetryTheorems.RefusedChangesNothingExactly` | src/planeon_trust/usage/telemetry.py:155-170 | A refused append leaves the buffer as it was if and only if the record exceeds the byte limit or only audit records are buffered. |
| `TelemetryTheorems.DroppedButEvicting` | src/planeon_trust/usage/telemetry.py:163-170 | A run that reaches a buffer in which a dropped newcomer costs a buffered record. |
| `TelemetryTheorems.AppendIsExact` | src/planeon_trust/usage/telemetry.py:152-190 | What every append leaves and answers: of the buffered records those that are audit or within the age limit, in order, without the least number of evictions that makes room (low ones first, then normal ones, in arrival order), followed by the newcomer; or the audit records alone and a refusal when no number of evictions makes room. |
| `TelemetryTheorems.OnlyTheOldGo` | src/planeon_trust/usage/telemetry.py:180-190 | When the audit records and those within the age limit leave room for the newcomer, an append leaves exactly those, in order, followed by the newcomer. |
| `TelemetryTheorems.LossesAreJustified` | src/planeon_trust/usage/telemetry.py:161-190 | After an append of a record within the byte limit no other non-audit record beyond the age limit is left, and a record within the age limit is lost only if it is not audit and the young records do not leave room for the newcomer. |
| `CardinalityGuards.MakeGuard` | src/planeon_trust/usage/telemetry.py:60-64 | A guard is made exactly when its maximum is in range, and starts empty. |
| `CardinalityGuards.CardinalityGuard.Admit` | src/planeon_trust/usage/telemetry.py:66-77 | The loop over the attributes makes the declared admissions one after the other and counts the rest as dropped. |
| `CardinalityGuards.AcceptsTheFirst` | src/planeon_trust/usage/telemetry.py:69-76 | After any history a value is accepted if and only if its marker is among the first `maximum` distinct ones ever presented for that tenant and attribute. |
| `CardinalityGuards.BucketsAreIndependent` | src/planeon_trust/usage/telemetry.py:71-75 | What other tenants present, or the same tenant for other attributes, makes no difference. |
| `CardinalityGuards.CallIsHistory` | src/planeon_trust/usage/telemetry.py:66-77 | One call leaves the guard as presenting its attributes one after the other does. |
| `CardinalityGuards.CallAcceptsTheFirst` | src/planeon_trust/usage/telemetry.py:66-77 | One call accepts, in order, exactly the attributes whose marker is at its turn among the first `maximum` distinct ones ever presented for that tenant and attribute. |

## Left out

- Identity tokens, signatures, key sets, canonical JSON, hashing and artifact verification, apart from the artifact's own validity period: external libraries; the model starts from verified identities, policies and profiles.
- Request field validation (identifier patterns, digest syntax, JSON shape and size) and response rendering: single-branch checks.
- Amounts and lifetimes that are not integers, and the enforcement and enabled checks of a budget definition: ruled out by the model's types.
- `list_usage`, `list_budgets`, `reconciliation_current` and the snapshot accessors: read-only projections of modelled state.
- The `CACHE_FAILURE` branch of a decision, which needs an unexpected exception inside the cache or the oracle client.
- The policy oracle's transport and readiness, and the decision service's own readiness beyond asking for the active policy.
- The detectors and the streaming SDK, whose sources are not part of this model: a push has an arbitrary verdict, and closing a stream never fails.
- Drawing random identifiers: the identifier of a new stream is an input; decision, audit and outbox identifiers are omitted.
- The redaction and evidence fields of stored records: a record is the decision or evaluation itself.
- Attribute sanitising and the encoding of telemetry records: a record carries its size, an attribute its canonical value text; an admitted record is audit priority exactly when audit is required.
- The upper bound of a policy's bundle version, which verification checks.
- Locks and the interleaving of threads inside one locked method.
- Database migrations, HTTP adapters, deployment and continuous integration files.
