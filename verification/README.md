# Verified model of the portfolio order service

This project models the part of the repository that moves orders and money figures, and proves what its
callers rely on. Orders, their append-only audit log, cancellation requests, one-time authorization codes
and reconciliation gates form one shared store. Submission, crash recovery, cancellation, reconciliation
and authorization all change that store concurrently, each store function as one committed transaction.

How the modules fit together:

- `Orders`, `Journal`, `Database`: the records, the state table, fill validation, the audit log with its
  replay, and every store transaction as a function from database to database. Clock readings, random
  identifiers and provider answers are arguments, so nothing is assumed about them: clocks may jump, providers
  may answer anything. A query whose order the database leaves open (the latest of several equally timed
  attempts) is an argument constrained to be one of its possible answers.
- `OrderStore`: the same transactions as the methods of a class that update the tables step by step, each
  proved to do exactly what its function says. `TradingService` and `ReconciliationService` chain those methods
  with provider answers, one call from start to end.
- `Invariants`, `TableLemmas`, `Preservation`, `WriteSets`: what every reachable database satisfies, and that
  every transaction keeps it.
- `Runs`, `OrderTheorems`, `CodeFailures`, `AttemptOwnership`, `AuditCompleteness`: any sequence of transactions, each
  with arguments its caller read at any earlier moment; the theorems about all such runs.
- `Lifecycles`: exactly when each step from a review to a started cancellation goes through, and what it leaves.
- `Witnesses`, `ServiceWitnesses`: concrete runs and one concrete execution that reach the states the theorems
  speak about, the failing inputs of the properties below included.
- `Services`, `ServiceSafety`, `ServiceTheorems`: service calls with program counters. Between any two steps of
  a call every other call may run, locks are taken and released, provider calls are recorded, and processes
  may die at any point.
- `Reconciliation`, `ReconciliationOutcomes`, `Scheduler`: matching broker answers, what each answer leaves of the
  record, the throttle, and the choice of the next order.
- `Pagination`, `AuditTrail`, `Uuids`, `EventCodec`, `AuditReadability`, `AuditWriters`, `Cursors`: listing by keyset
  pages, also while transactions commit in between, the audit-event codec with every writer, and the cursor tokens.
- `Grouping`, `Overview`, `PortfolioOverview`: the parts of the portfolio overview in exact arithmetic, and the whole
  of it for given accounts and positions.
- `RefreshLoop`, `RefreshLoopObject`: the dashboard's refresh loop, as a state machine and as the object its
  callbacks update.

Where the code is weaker than its names suggest, the model keeps the code and states the exact condition:

- A submission result that says FILLED and carries no fill is recorded as it is (`FilledBySubmission`,
  `FilledWithoutFillIsAccepted`). An order that becomes Filled in any other way is filled completely.
- A code can end up both consumed and invalidated, through one unguarded write only
  (`MarksExcludeEachOtherExactly`; `SomeRunMarksACodeTwice` is a run that does it).
- A cancellation attempt owns its order by having the largest clock reading. If the clock went back, an older
  attempt's late result can be applied and the owner's is dropped (`OnlyOwnerFinishesExactlyWhenLatest`,
  `BeginOwnsExactlyWhenClockMoved`, `Cancel`; `SomeRunAppliesALateResult` is a run that does it).
- Reconciliation may keep the state and still add one to the version (`ChangesFollowTheTable`).
- The slices of the account allocation leave out accounts worth less than nothing, so they add up to the
  total only when there are none (`AccountSlicesAddUpExactly`), and their counts add up to the counted positions
  only when every account that holds one is worth more than nothing (`AccountCountsAddUpExactly`).
  `SomeAccountSlicesDoNotAddUp` is a portfolio in which neither holds.
- An order id of 128 characters passes the cursor's length check, but if it lies outside the basic
  multilingual plane its own token is too long to decode (`LongForeignIdsDoNotFit`).
- An order listing that asks for an empty provider or an empty symbol gets the cursors of the listing that asks for
  none, but shows other rows (`EmptyNamesListOtherwise` has the failing inputs of both kinds). Listings that share
  cursors show the same rows exactly when their empty names leave the same orders
  (`SharedCursorsListAlikeExactly`); with every name stored, that is when both ask for an empty name or neither does,
  or nothing is listed anyway (`SpellingsListAlikeExactly`).
- A submission whose final checks are interrupted, rather than fail, leaves its order in SUBMITTING for recovery
  (`ExecuteSubmission`).
- The log has no code for a refusal: a cancellation stored as cancel_rejected is logged as validation_failed
  (`LoggedAsStoredExactly`).
- The reason stored for an exhausted code is not one the audit encoder accepts; no writer puts it in an event
  (`ReasonsStore`).

`dafny verify dfyconfig.toml` checks the whole project.

## Model

| member | source | states |
|---|---|---|
| Orders.ValidateFill | portfolio_mcp/stored_orders.py:22-39 | A fill is accepted if and only if it is positive, at most the ordered quantity, not below what was filled before and printable, and is then taken over as reported |
| Orders.CancelableExactly | portfolio_mcp/stored_orders.py:240-258 | An order can be canceled if and only if it is accepted or partially filled, has a broker id that is not blank and, when partially filled, is not known to be complete |
| Orders.ResolutionIsLegal | portfolio_mcp/order_cancellation_store.py:85-121 | Whatever a provider claims about a pending cancellation, the resolver picks a legal move out of CANCEL_PENDING that agrees with the cumulative fill, never CANCELED with a complete fill, and the fill only grows |
| Orders.CanceledExactlyWhenUnfilledRemains | portfolio_mcp/order_cancellation_store.py:96-107 | A canceled report is believed if and only if its fill is acceptable and something stays unfilled |
| Orders.SettledExactly | portfolio_mcp/order_cancellation_store.py:85-121 | When a cancellation settles as CANCELED, FILLED, PARTIALLY_FILLED, ACCEPTED and EXPIRED, each if and only if the report, what it says is filled and what is recorded allow it; UNKNOWN otherwise |
| Orders.SettledFill | portfolio_mcp/order_cancellation_store.py:85-121 | The fill of a report is taken over exactly when the report is understood and its fill acceptable, as it was reported |
| Journal.FoldConcat | portfolio_mcp/order_record_ops.py:28-62 | Replaying an appended log equals replaying the tail from where the head ended |
| Journal.ReplayWrite | portfolio_mcp/order_record_ops.py:65-97 | Events that carry no status are passed over by replay; only the status events of a write move an order's ledger |
| Database.InvalidationEvents | portfolio_mcp/order_record_ops.py:100-140 | Exactly one withdrawal event per withdrawn request, in an order the query leaves open |
| Database.LastAttemptAt | portfolio_mcp/reconciliation_store.py:212-222 | The largest logged attempt time of an order, and none exactly when it was never attempted |
| TableLemmas.InvalidateKeepsInv | portfolio_mcp/order_record_ops.py:100-140 | Withdrawing requests and their codes keeps every part of the store invariant |
| TableLemmas.CommitKeepsInv | portfolio_mcp/order_record_ops.py:65-140 | One argument behind all five status writers: a legal record change, logged so that replay yields the new record and with every active request of the order withdrawn, keeps the invariant |
| Preservation.BeginSubmissionKeeps | portfolio_mcp/order_submission_store.py:91-179 | Creating an order keeps the invariant, whichever of its identifiers collide |
| Preservation.FinishSubmissionKeeps | portfolio_mcp/order_submission_store.py:366-465 | Recording any submission result keeps the invariant |
| Preservation.CreateRequestKeeps | portfolio_mcp/order_cancellation_store.py:124-206 | Creating a request supersedes the active one first, so an order never has two |
| Preservation.AuthorizeRequestKeeps | portfolio_mcp/order_cancellation_store.py:219-348 | Approving a request, and each refusal that commits a withdrawal, keeps requests and codes consistent |
| Preservation.BeginCancellationKeeps | portfolio_mcp/order_cancellation_store.py:413-593 | The cancellation claim, which never consults the state table, still moves along it and logs a fresh attempt |
| Preservation.FinishCancellationKeeps | portfolio_mcp/order_cancellation_store.py:596-686 | Applying any cancellation outcome keeps the invariant |
| Preservation.FinishReconciliationKeeps | portfolio_mcp/reconciliation_store.py:268-432 | Recording any reconciliation finding, state kept or moved, keeps the invariant |
| Preservation.RecordFailureKeeps | portfolio_mcp/order_authorization_store.py:125-220 | Counting failed uses keeps a usable code below five failures and no code above |
| Preservation.TransactionKeeps | portfolio_mcp/README.md:37-40 | Every transaction of every writer, with any clock reading, identifier and provider answer, keeps the invariant and only evolves the tables legally |
| WriteSets.OtherOrdersUntouched | portfolio_mcp/order_record_ops.py:100-140 | No transaction changes the record of an order other than the one it names |
| WriteSets.FinishReconciliationWrites | portfolio_mcp/reconciliation_store.py:317-370 | A finding is written to exactly the record it was made for, or nothing changes |
| Runs.CurrentMeansUnchanged | portfolio_mcp/order_cancellation_store.py:144-166 | The optimistic version is sound: a record that still carries the version read earlier is the record that was read |
| Runs.ServedIsFaithful | portfolio_mcp/order_reconciliation.py:303-384 | However old the record a service acts on, its arguments never contradict the current one |
| Runs.RunIsHealthy | portfolio_mcp/README.md:37-40 | The invariant and legal evolution hold throughout every run |
| OrderTheorems.LogReplaysEveryPastRecord | portfolio_mcp/order_submission_store.py:169-180 | Replaying the log as it stood at any past moment gives every order as it was then, with an unbroken chain of previous and next states and the last fill carried; later log entries never disturb it |
| OrderTheorems.ChangesFollowTheTable | portfolio_mcp/execution.py:37-88 | Every committed change is an edge of the table or a reconciliation that keeps the state, adds exactly one to the version, and version 1 means SUBMITTING |
| OrderTheorems.OrdersOnlyDescend | portfolio_mcp/reconciliation_store.py:321-367 | Over any stretch of a run versions, times and fills only grow, broker ids are write-once, provider times never decrease, terminal states are final, and Filled reached other than by submission is complete |
| OrderTheorems.OneOrderPerDraft | portfolio_mcp/order_submission_store.py:99-111 | No draft ever yields two orders, at any two moments of a run |
| OrderTheorems.FilledBySubmission | portfolio_mcp/order_submission_store.py:389-397 | A submission that ends Filled records the whole quantity if and only if its result carried a fill |
| OrderTheorems.FilledWithoutFillIsAccepted | portfolio_mcp/order_submission_store.py:389-406 | A concrete result that leaves an order Filled with nothing recorded as filled |
| OrderTheorems.ReviewsAreFresh | portfolio_mcp/order_record_ops.py:100-140 | At every moment each order has at most one active request, it describes the order as it is now, the order can still be canceled, and every usable cancel code belongs to an authorized request about that very record |
| OrderTheorems.ApprovalNeverFindsStaleRequest | portfolio_mcp/order_cancellation_store.py:256-297 | The two refusals for a changed order cannot occur; approval succeeds if and only if the request is pending, unexpired and quoted as the order now is |
| OrderTheorems.CodesAreSpentOnce | portfolio_mcp/order_authorization_store.py:49-80 | A code's consumption time never changes, an unusable code stays unusable, failures stay within five, and one target has at most one usable code |
| OrderTheorems.AtMostOneConsumer | portfolio_mcp/order_authorization_store.py:223-254 | Of any two consumers of one code anywhere in a run, at most one is told it succeeded |
| OrderTheorems.MarksExcludeEachOtherExactly | portfolio_mcp/order_authorization_store.py:135-161 | A code gets both a consumption and an invalidation exactly when an expiry failure is recorded against a spent code |
| OrderTheorems.MostTransactionsOnlyWithdraw | portfolio_mcp/order_authorization_store.py:49-80 | Apart from a consumption and a recorded failure, a transaction does nothing to a code but withdraw a usable one; new codes start usable with no failure counted |
| OrderTheorems.OnlyLateConsumptionIsLate | portfolio_mcp/order_authorization_store.py:223-254 | Codes are spent in time unless a consumption itself comes late |
| CodeFailures.FailureIsCounted | portfolio_mcp/order_authorization_store.py:125-161 | A wrong guess at a usable code adds one to its count and makes it unusable, with the attempts exhausted, exactly when the count reaches five; no other failure is counted, an expiry marks its code and no other code changes |
| CodeFailures.FailuresAreCounted | portfolio_mcp/order_authorization_store.py:145-161 | In every run a code's count is the number of wrong guesses made at it while it could be used |
| CodeFailures.FiveGuessesLock | portfolio_mcp/order_authorization_store.py:145-161 | After five wrong guesses, whatever else happens in between, a code is never accepted again |
| CodeFailures.FewerGuessesDoNot | portfolio_mcp/order_authorization_store.py:145-161 | While nothing but wrong guesses happens to a usable code, it is accepted if and only if they stay below five |
| CodeFailures.ConsumedExactlyWhenUsable | portfolio_mcp/order_authorization_store.py:223-254 | A consumption succeeds if and only if the code is usable, spends it at that moment and changes no other |
| Lifecycles.RequestsAreCreatedExactly | portfolio_mcp/order_cancellation_store.py:124-206 | In any run, a request about an order read earlier is created if and only if the order has not changed since and can be canceled; it describes that record, with the times given, and supersedes every other request of the order with its codes |
| Lifecycles.RequestOpensUntilExpiry | portfolio_mcp/order_cancellation_store.py:231-253 | A created request can be approved as reviewed exactly until its expiry, and is refused as expired after it |
| Lifecycles.ReadingExpires | portfolio_mcp/order_cancellation_store.py:351-387 | Reading a request expires it, and withdraws its codes, if and only if it is active and past its expiry; nothing else changes |
| Lifecycles.ApprovalIssuesWorkingCode | portfolio_mcp/order_cancellation_store.py:299-348 | An approval leaves one usable code for the quoted record with the expiry it was given, and spending it succeeds |
| Lifecycles.ApprovedCancellationStarts | portfolio_mcp/trading_service.py:851-951 | Undisturbed, a request that is approved in time and spent moves the very order that was reviewed to CANCEL_PENDING |
| Lifecycles.CancellationsStartExactly | portfolio_mcp/order_cancellation_store.py:413-593 | In any run, a cancellation of an order read earlier starts a new attempt if and only if the order has not changed since, can be canceled and the attempt is not in the log yet |
| Lifecycles.SubmitCodeIsIssued | portfolio_mcp/order_authorization_store.py:34-94 | A code for a draft is issued exactly when the draft exists and the code is new; it covers that draft, starts unspent, and supersedes the usable codes of that draft and no others |
| Witnesses.SomeRunReachesCancelableOrder | portfolio_mcp/order_submission_store.py:91-465 | A concrete run saves, submits, hands over and accepts an order that can then be canceled |
| Witnesses.SomeRunMarksACodeTwice | portfolio_mcp/order_authorization_store.py:135-144 | A concrete run in which a code spent in time is then invalidated by a failure recorded as expired, so the two marks do not exclude each other |
| Witnesses.SomeRunAppliesALateResult | portfolio_mcp/order_cancellation_store.py:615-628 | A concrete run in which the clock went back between two attempts, and the older attempt's late result cancels the order that the newer attempt owns |
| AttemptOwnership.OnlyOwnerFinishesExactlyWhenLatest | portfolio_mcp/order_cancellation_store.py:615-628 | No late result of another attempt can be applied if and only if the owner's clock reading is strictly the largest |
| AttemptOwnership.OwnerFinishesWhenLatest | portfolio_mcp/order_cancellation_store.py:615-686 | Under that condition the owner's own result is applied, whichever row the query returns |
| AttemptOwnership.BeginOwnsExactlyWhenClockMoved | portfolio_mcp/order_cancellation_store.py:455-593 | A begin makes its attempt the strictly latest if and only if its clock reading exceeds every earlier attempt's |
| AuditCompleteness.LogIsComplete | portfolio_mcp/order_record_ops.py:28-140 | At every moment of every run a reader of the log alone knows the result of each order (source, provider time and status, and the code, unless it is none of the codes of the log), which agents' codes were spent at which moments, and which requests were withdrawn for which reasons: the log says so if and only if it happened |
| AuditCompleteness.TransactionStaysComplete | portfolio_mcp/order_record_ops.py:28-140 | No transaction of any writer changes a result, spends a code or withdraws a request without logging it, or logs one that did not happen |
| AuditCompleteness.LoggedAsStoredExactly | portfolio_mcp/stored_orders.py:42-55 | A cancellation or reconciliation logs the code it stores if and only if it was not refused; a refused cancellation is logged as validation_failed, a refused match as unknown |
| ServiceSafety.StepIsSafe | portfolio_mcp/trading_service.py:334-417 | Every step of every call, and every crash, keeps the safety invariant of the whole system |
| ServiceSafety.ExecutionIsSafe | portfolio_mcp/submission_locks.py:54-102 | The safety invariant holds at every moment of every interleaved execution |
| ServiceTheorems.SubmittedAtMostOnce | portfolio_mcp/trading_service.py:317-417 | The provider is asked to submit a draft at most once ever, and only after the order was committed as handed over |
| ServiceTheorems.OwnFinishNeverConflicts | portfolio_mcp/order_submission_store.py:208-229 | A live submitter never meets a version conflict on its own order, and recording UNKNOWN always succeeds |
| ServiceTheorems.RecoveryTakesOnlyAbandoned | portfolio_mcp/order_submission_store.py:299-363 | Recovery never touches an order a live call is submitting |
| ServiceTheorems.CancelCallsWithinEntries | portfolio_mcp/trading_service.py:781-831 | Provider cancel calls never outnumber entries into CANCEL_PENDING, and no attempt is sent twice |
| ServiceTheorems.AuthorizedCancelMatchesReview | portfolio_mcp/trading_service.py:851-951 | An authorized cancellation starts only on a consumed code not acted on before, and only on the exact record the owner reviewed |
| ServiceTheorems.AuthorizedSubmitMatchesDraft | portfolio_mcp/trading_service.py:285-315 | An agent's submission creates its order only on a consumed code for that very draft |
| ServiceTheorems.NoCodeActsTwice | portfolio_mcp/mcp_authorization.py:196-282 | No code ever authorizes two actions, in any execution |
| ServiceTheorems.CodesAreSpentInTime | portfolio_mcp/mcp_authorization.py:223-262 | No code is spent after its expiry, in any execution |
| ServiceWitnesses.SomeExecutionSubmitsAndCancels | portfolio_mcp/trading_service.py:334-417 | A concrete execution calls the provider once to submit and once to cancel, so the guards of the steps can be met |
| Reconciliation.SingleExactMatch | portfolio_mcp/order_reconciliation.py:248-271 | The loop's outcome is a property of the set of distinct matching snapshots: matched exactly when there is one, ambiguous when several agree with themselves, mismatch on a contradiction |
| Reconciliation.VerdictIgnoresOrderAndRepeats | portfolio_mcp/order_reconciliation.py:248-301 | Reordering, repeating or reprinting the snapshots of an answer changes nothing |
| Reconciliation.MatchesOwnSnapshotsExactly | portfolio_mcp/order_reconciliation.py:273-301 | A snapshot matches if and only if it is the order's own in all but what the broker reports about its progress, with equal quantity and limit |
| ReconciliationOutcomes.PlanEnds | portfolio_mcp/order_reconciliation.py:225-384 | What an answer leaves of the record: the one distinct match that is known, not older, legal and consistent gives its state (CANCEL_PENDING staying when the match is still working), fill, broker id, time and label; every other answer keeps the record, and says as what it ends |
| Reconciliation.PlanFits | portfolio_mcp/order_reconciliation.py:320-384 | No plan made for a record contradicts its broker id, moves its provider time back or starts a cancellation |
| OrderTheorems.OnlyItsFinishReopensPending | portfolio_mcp/order_reconciliation.py:336-340 | In no run does anything but the finish of a cancellation take an order from CANCEL_PENDING back to ACCEPTED or PARTIALLY_FILLED: no reconciliation does, however stale the record it planned for and whatever the broker answered |
| OrderTheorems.KeepingIsNeverRefused | portfolio_mcp/reconciliation_store.py:329-340 | Once a service has read an order as syncable, recording "state unchanged" about it is accepted at every later moment of the run: it is past submission, and Filled only with its whole quantity |
| ReconciliationService.ExecuteClaim | portfolio_mcp/order_reconciliation.py:190-223 | A claim of an order still as it was read leaves of it what its answer calls for, told from the answer alone, and searches the broker exactly when the order has an identity to look for |
| ReconciliationService.ReconciliationIsTotal | portfolio_mcp/order_reconciliation.py:190-384 | From any record past submission that is not Filled short of its quantity, with no concurrent change, every answer ends with exactly one logged result, one more version, and the record the answer calls for |
| ReconciliationService.EveryAttemptEndsWithOneResult | portfolio_mcp/order_reconciliation.py:126-223 | In every run, a claim of an order once read as syncable, on whatever the order has become since, ends with exactly one result, the one its answer calls for, unless the order changes again before it is written |
| Scheduler.ClaimSucceedsExactlyWhenDue | portfolio_mcp/reconciliation_store.py:173-265 | A claim succeeds if and only if the planned time computed at that moment is that moment; a throttled one is told the exact first time that would succeed |
| Scheduler.ClaimsAreSpaced | portfolio_mcp/reconciliation_store.py:173-190 | Any two successful claims of a group are at least the later claim's interval apart, however the clock jumps |
| Scheduler.ThrottleBound | portfolio_mcp/reconciliation_store.py:167-206 | A window of width W holds at most W divided by the interval, plus one, successful claims of a group |
| Scheduler.TargetComesFirst | portfolio_mcp/reconciliation_store.py:229-243 | An order is the target if and only if it is a candidate and each other candidate was attempted later, or as recently and created later, or then too and has the larger id; never attempted counts as earliest |
| Scheduler.TargetIsUnique | portfolio_mcp/reconciliation_store.py:209-244 | A group has exactly one possible target |
| Scheduler.ScheduledClaimsUseUpTheQueue | portfolio_mcp/reconciliation_store.py:107-244 | While an order waits, every scheduled claim of its group uses up one order that was ahead of it or newly arrived; manual claims never push it back |
| Scheduler.AttemptedInTime | portfolio_mcp/reconciliation_store.py:107-244 | An order that stays syncable is attempted no later than the first scheduled claim beyond its queue and the newcomers |
| OrderStore.Store.Withdraw | portfolio_mcp/order_record_ops.py:100-140 | The loop over any number of active requests, in any order of rows, retires each with its usable codes and logs one event per row in that order; with at most one row it equals the function of the transactions |
| OrderStore.Store.LatestAttemptRow | portfolio_mcp/order_cancellation_store.py:438-449 | The latest-attempt query returns a row with the largest time, or none when there is none |
| OrderStore.Store.BeginSubmission | portfolio_mcp/order_submission_store.py:91-179 | Step-by-step creation does to the tables what the model's transaction does, and keeps the invariant |
| OrderStore.Store.FinishSubmission | portfolio_mcp/order_submission_store.py:366-465 | Field-by-field recording of a result equals the model's transaction |
| OrderStore.Store.BeginCancellation | portfolio_mcp/order_cancellation_store.py:413-593 | The claim, grant, attempt, withdrawals and transition, in the code's order, equal the model's transaction |
| OrderStore.Store.FinishCancellation | portfolio_mcp/order_cancellation_store.py:596-686 | Applying an outcome in place equals the model's transaction |
| OrderStore.Store.RecoverStranded | portfolio_mcp/order_submission_store.py:299-363 | One pass turns exactly the stranded orders whose lock is free to UNKNOWN, with the reason and one more version, counts them, leaves every other record alone, and leaves none behind |
| OrderStore.Store.CreateRequest | portfolio_mcp/order_cancellation_store.py:124-206 | Superseding and inserting in place equals the model's transaction |
| OrderStore.Store.AuthorizeRequest | portfolio_mcp/order_cancellation_store.py:219-348 | Approval and its committing refusals in place equal the model's transaction |
| OrderStore.Store.UpdateRequestStatus | portfolio_mcp/order_cancellation_store.py:390-410 | Expiring withdraws, attempting overwrites, and the invariant survives when the code was spent |
| OrderStore.Store.Target | portfolio_mcp/reconciliation_store.py:209-244 | Walking the orders in any order finds the candidate attempted least recently, then oldest, then with the smallest id, and none exactly when there is no candidate |
| OrderStore.Store.RefreshPlans | portfolio_mcp/reconciliation_store.py:66-89 | One plan for each group that has a target, in group order, with the candidate that comes first by attempt, age and id, and the next time a claim would pass |
| OrderStore.Store.ClaimPlanned | portfolio_mcp/reconciliation_store.py:107-149 | The scheduled claim in place equals the model's transaction |
| OrderStore.Store.FinishReconciliation | portfolio_mcp/reconciliation_store.py:268-432 | Recording a finding in place equals the model's transaction |
| OrderStore.Store.RecordFailure | portfolio_mcp/order_authorization_store.py:125-220 | Counting a failure and logging it in place equals the model's transaction |
| OrderStore.Store.ConsumeCode | portfolio_mcp/order_authorization_store.py:223-254 | The conditional consumption equals the model's transaction and reports whether it took effect |
| TradingService.ExecuteSubmission | portfolio_mcp/trading_service.py:334-456 | A submission that creates its order leaves it in SUBMITTING only when its final checks are interrupted, unmarked, without a provider call and where recovery finds it once the lock is free; failed checks reject it without a provider call; otherwise the provider is called once and the order has the answer's state, broker id, fill and result if and only if the answer is believable, and is UNKNOWN if not |
| TradingService.RecordingTakesAnswer | portfolio_mcp/trading_service.py:419-456 | Recording an answer gives the order the answer's state if and only if the answer is a final result with a broker id, unless rejected, and a fill that fits; the stripped id, the fill, the result code and the source go with it |
| TradingService.SettledCanceledExactly | portfolio_mcp/trading_service.py:690-718 | An order is recorded as canceled if and only if the provider says so about this very order with an acceptable incomplete fill; no answer leaves it pending |
| TradingService.Cancel | portfolio_mcp/trading_service.py:744-831 | A cancellation settles its order when its clock reading exceeds every earlier attempt's, in the state, fill, broker id and result the answer alone determines, and is dropped when it is below one of them |
| Pagination.SortedLists | portfolio_mcp/order_query_store.py:161-174 | The plain list holds every row once, newest first |
| Pagination.DescendingIsUnique | portfolio_mcp/order_query_store.py:166-172 | There is only one such list |
| Pagination.ListPage | portfolio_mcp/order_query_store.py:161-187 | A page fetched with one extra row is the page of the plain list, with a cursor exactly when rows remain |
| Pagination.ReadShowsEveryRowOnce | portfolio_mcp/order_query_store.py:273-303 | Following cursors over a growing table never repeats or reorders a row, and misses none that was there at the start |
| AuditTrail.AuditReaderMissesNothing | portfolio_mcp/order_query_store.py:190-303 | In any run, whatever commits between the pages, a reader of the audit log who follows the cursors sees only events the filters let through, newest first, and by the end each event present at the first page exactly once |
| AuditTrail.ShownStaysShown | portfolio_mcp/order_query_store.py:219-253 | What one page shows every later page would show: the order or draft that gives an event its provider and symbol never changes them |
| AuditTrail.ShowsExactly | portfolio_mcp/order_query_store.py:219-268 | An event is shown if and only if each filter given lets it through: its order or its order's draft, its draft, account, the names of its order or else of its draft, the state it led to and its day |
| Pagination.PagesNeeded | portfolio_mcp/order_query_store.py:174-187 | Reading n pages ends if and only if they have room for the remaining rows |
| Pagination.PagesConcatenateToTheList | portfolio_mcp/order_query_store.py:106-187 | The pages of a table at rest concatenate to exactly the sorted list |
| Pagination.ListOrders | portfolio_mcp/order_query_store.py:106-187 | Bad limits and cursors issued for other filters or limits are refused, and nothing else is; the page holds, newest first and by id among equally old, only orders of the account, states, provider, symbol and days asked for, and every such order past the cursor is on it or older than the next cursor |
| Pagination.SharedCursorsListAlikeExactly | portfolio_mcp/order_history.py:119-133 | Listings that share cursors show the same rows if and only if, of the orders they ask for apart from empty names, the empty names of both leave the same ones |
| Pagination.SpellingsListAlikeExactly | portfolio_mcp/order_query_store.py:140-147 | Where every stored order has a provider and a symbol, listings that share cursors show the same rows if and only if both ask for an empty name or neither does, or no order meets the filters even without their empty names |
| Pagination.EmptyNamesListOtherwise | portfolio_mcp/order_query_store.py:140-147 | Adding an empty provider, or an empty symbol, to any filters keeps the cursors and loses every order that was listed |
| Uuids.UuidRoundTrip | portfolio_mcp/order_history.py:385-400 | Reading a printed UUID gives the UUID back, so normalizing twice is normalizing once |
| EventCodec.EncodeDetails | portfolio_mcp/order_history.py:375-485 | The field loop accepts and normalizes exactly what the field rules say |
| EventCodec.EncodeDecodeEncode | portfolio_mcp/order_query_store.py:56-63 | Whatever was accepted once is accepted again by a reader's decode and revalidation, unchanged |
| EventCodec.StoresWhatWasGiven | portfolio_mcp/order_history.py:375-485 | What is stored for each field is what was given, identifiers apart, which are the same UUID printed canonically; times, lengths and fixed vocabularies hold for what is stored |
| EventCodec.PlainFieldsFit | portfolio_mcp/order_history.py:482-485 | Plain fields of at most 128 characters always fit the size limit |
| AuditReadability.ReasonsStore | portfolio_mcp/order_history.py:401-421 | Every withdrawal reason, each order_ state included, is accepted, and the exhausted-code reason is the only one that is not |
| AuditReadability.SoundIsAccepted | portfolio_mcp/order_history.py:375-485 | Every event whose details go with its kind passes the encoder |
| AuditWriters.TransactionStaysReadable | portfolio_mcp/order_record_ops.py:28-62 | No transaction of any writer makes the log unreadable |
| AuditWriters.NoEventIsCorrupted | portfolio_mcp/order_query_store.py:56-79 | In every run, every event in the log was accepted when written, is accepted when read and reads back as stored |
| Cursors.TokenRoundTrip | portfolio_mcp/order_history.py:232-248 | Stripping padding loses nothing: the token decodes to the very bytes within the limit, and is four thirds as long, rounded up |
| Cursors.DumpsIsUnambiguous | portfolio_mcp/order_history.py:232-248 | Two cursors whose JSON texts agree are the same cursor, whatever must be escaped in them |
| Cursors.CursorRoundTrip | portfolio_mcp/order_history.py:155-187 | Decoding an encoded cursor returns it in UTC if and only if the id has 1 to 128 characters, the token fits and the filters are its own |
| Cursors.FitsExactly | portfolio_mcp/order_history.py:232-246 | The token fits if and only if the escaped id and the printed time take at most 1400 characters |
| Cursors.OrdinaryCursorRoundTrip | portfolio_mcp/order_history.py:155-187 | An ordinary cursor survives the round trip if and only if its id has 1 to 128 characters that together with the time take at most 1400 when escaped, and the filters are its own |
| Cursors.AsciiCursorsFit | portfolio_mcp/order_history.py:232-246 | ASCII ids of up to 128 characters always fit, whatever must be escaped |
| Cursors.LongForeignIdsDoNotFit | portfolio_mcp/order_history.py:177-246 | A concrete id within the length limit whose own cursor cannot be decoded |
| Grouping.GroupsPartition | portfolio_mcp/overview.py:588-592 | Over distinct keys that cover the items, the groups together weigh what the items weigh |
| Overview.ClassifyPositions | portfolio_mcp/overview.py:364-425 | The three lists are, each in the given order, the counted positions, those with a gain or loss, and exactly one exclusion with the first reason that applies for each of the rest |
| Overview.ClassificationCovers | portfolio_mcp/overview.py:364-425 | Exclusions and gains together are as many as the positions, every gaining position is counted, and a counted position is excluded only for its missing cost basis |
| Overview.ReasonsExactly | portfolio_mcp/overview.py:364-425 | Each exclusion reason is given if and only if its own condition holds and no earlier one does |
| Overview.RoundHalfUpIsNearest | portfolio_mcp/overview.py:592-598 | Rounding picks the closest four-place number, and of two the one farther from zero |
| Overview.ArrangedIsLargestFirst | portfolio_mcp/overview.py:610 | Sorting keeps the slices and puts larger amounts first, equal ones by the first differing character of their names or the shorter name |
| Overview.BuildAllocation | portfolio_mcp/overview.py:570-616 | The dictionary loops produce one slice per key in sorted order, and none without a positive denominator |
| Overview.AllocationConserves | portfolio_mcp/overview.py:570-616 | The slices of a group hold exactly the value and the number of the counted positions |
| Overview.SlicesOverShow | portfolio_mcp/overview.py:570-610 | Every counted position is in exactly one slice, and each slice shows the value, the number and the rounded share of the positions of its key |
| Overview.TypesExactly | portfolio_mcp/overview.py:558-568 | The type of a position is the first of the known words its class name holds, and equity without any |
| Overview.PercentagesAddUp | portfolio_mcp/overview.py:592-612 | The rounded percentages of n slices add up to 1 within n times 0.00005 |
| PortfolioOverview.GetOverview | portfolio_mcp/overview.py:232-314 | Each account shows what it reports or its counted positions are worth, every counted position is in one slice of its class and one of its type, each with its own value, number and rounded share, and all slices come largest first. In the overview of stored accounts and positions every group and the gain speak about all positions, the exclusions are as many as the gain leaves out, the total is what the fresh accounts show, the class and type slices hold all of it and all counted positions, the cash is what the cash slices hold, and the account slices hold the total, and all counted positions, exactly when no fresh account shows less than nothing, and when every account that holds a counted position shows more than nothing |
| PortfolioOverview.CashIsItsSlices | portfolio_mcp/overview.py:425-435 | The cash figure, computed on its own, is what the slices of the cash classes hold together |
| PortfolioOverview.SomeAccountSlicesDoNotAddUp | portfolio_mcp/overview.py:497-511 | Two fresh accounts worth 10 and -5: the account slices hold more than the total of 5 and fewer positions than were counted |
| Overview.Contributions | portfolio_mcp/overview.py:437-511 | Each account contributes what it should, and the account slices are, sorted, one slice for each account worth more than nothing with its value, count and rounded share |
| Overview.TotalIsSumOfAccounts | portfolio_mcp/overview.py:269-284 | The total is the sum of the contributions of the accounts that are not stale |
| Overview.AccountSlicesAddUpExactly | portfolio_mcp/overview.py:497-511 | The account slices add up to the total if and only if no counted account is worth less than nothing |
| Overview.AccountCountsAddUpExactly | portfolio_mcp/overview.py:497-532 | The counts of the account slices add up to the number of counted positions if and only if every account that holds one is worth more than nothing |
| Overview.AccountPercentagesAddUp | portfolio_mcp/overview.py:497-511 | When no counted account is worth less than nothing, the rounded percentages of n account slices add up to 1 within n times 0.00005 |
| Overview.GainLossAddsUp | portfolio_mcp/overview.py:618-645 | The reported gain is the sum of the positions' own gains, and the market value less the cost; the counts cover all positions |
| Overview.BuildHistory | portfolio_mcp/overview.py:734-763 | One point per day with dollar values, in date order, each with the dollars recorded for that day, their number and whether every account has one; together they hold every recorded dollar |
| RefreshLoop.BackoffGrowsWithinBounds | dashboard/src/features/orders/orderRefreshLoop.ts:19-21 | The backoff never shortens as failures add up and stays within two and thirty seconds |
| RefreshLoop.BackoffDoubles | dashboard/src/features/orders/orderRefreshLoop.ts:19-21 | 2, 4, 8, 16 seconds and then always 30 |
| RefreshLoop.SelectIsEarliest | dashboard/src/features/orders/orderRefreshLoop.ts:40-58 | The selected action is the earliest of all that are due, of equally early ones the reload and then the first group, and there is none exactly when nothing can be done |
| RefreshLoop.StepKeepsValid | dashboard/src/features/orders/orderRefreshLoop.ts:23-121 | Every callback keeps one timer or one request, never both |
| RefreshLoop.SingleFlight | dashboard/src/features/orders/orderRefreshLoop.ts:32-63 | At every moment of every run at most one request is out, none while a timer is armed, and every armed delay is at least a second |
| RefreshLoop.NoAskBeforeBackoff | dashboard/src/features/orders/orderRefreshLoop.ts:65-106 | After a failed refresh of a group, whatever happens in between, the group is not asked again before its backoff time |
| RefreshLoop.FailuresAreCounted | dashboard/src/features/orders/orderRefreshLoop.ts:65-111 | In every run the counts the loop keeps are the failures in a row of each group's refreshes and of the plan's loads |
| RefreshLoop.FailuresWaitTheirTurn | dashboard/src/features/orders/orderRefreshLoop.ts:65-111 | After the nth failure in a row the next try comes the nth backoff later, for a group as for the plan |
| RefreshLoop.LoopGoesOn | dashboard/src/features/orders/orderRefreshLoop.ts:23-121 | The loop falls idle only when a plan leaves nothing to do, a callback of the page throws or stops it, or the page does |
| RefreshLoop.TimersAndWakes | dashboard/src/features/orders/orderRefreshLoop.ts:32-63 | A fired timer sends the request it was armed for, a plan arms its earliest action, never in less than a second, and waking loads at once unless a request is out or the page is the one the last plan was for |
| RefreshLoopObject.OrderRefreshLoop.SchedulePlan | dashboard/src/features/orders/orderRefreshLoop.ts:40-63 | The loop over a plan's groups arms the earliest action |
| RefreshLoopObject.OrderRefreshLoop.RefreshArrived | dashboard/src/features/orders/orderRefreshLoop.ts:86-106 | The continuation of a refresh, caller callbacks that throw or stop included, is the model's step |
| RefreshLoopObject.OrderRefreshLoop.Wake | dashboard/src/features/orders/orderRefreshLoop.ts:115-120 | Waking replaces an armed timer by a load and never overlaps a request |

## Left out

- SQL, migrations and file locks: transactions are atomic and serializable, the log is append-only, draft ids are unique, and a lock is exclusive and freed by a crash.
- Hashes, salts and random codes: a fingerprint is the text or record it is computed from, and checking a candidate code is an outcome, not a computation.
- The `order_authorizations` table and `authorization_for_draft`: written alongside the events that are modelled and only read for display.
- `record_authorization_failure` of the submission store: it only appends one event.
- Creating a cancel code through `create_mcp_authorization`: the services issue cancel codes only by approving a request.
- The dashboard's precondition checks (drafts, quotes, guard, capability): each is one outcome, passed or refused.
- `active_cancellation_request_for_order` and the other plain reads: they return what the tables hold.
- Human-readable messages, labels and symbols, and deduplication keys that repeat an identifier already unique.
- NaN inside a broker snapshot compares by identity in the original; here a non-finite number equals itself.
- Decimal context precision: quantities and amounts are exact, with the text they print as kept for the length limits.
- The in-process asyncio lock around a cancellation: the proofs hold without it.
- Services.Begun: which actor started a submission is not kept, so its result events name the dashboard.
- Pagination.ListOrders: the two Unicode foldings of the names asked for are arbitrary functions; the store's own folding of stored names is ASCII, as SQLite's is.
- Cursors.CursorRoundTrip: parsing JSON and times is left to arguments assumed to read back the text printed for the cursor at hand; that text determines the cursor (`DumpsIsUnambiguous`).
- Cursors.OrdinaryCursorRoundTrip: likewise.
- int() on non-ASCII digits when a UUID is read: such texts are refused here.
- The audit-event cursor: its token layer, and what it is bound to, are like those of order cursors.
- Market-value warnings, provider coverage and status words of the overview, and its dates: single-branch text.
- RefreshLoop.Next: the page's wish to keep the loop is fixed during one callback, and timers do not fire before their time.
- The fixture provider, HTTP routes, agent tools, React components and broker adapters.
