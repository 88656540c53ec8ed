# Verification of the notebook sandbox backend

The backend lets users create, start, stop and delete notebooks in a Kubernetes cluster, meters what
they use, and debits it from an external credit service. Four programs share one database and one
cluster: the API, the spawner worker, the idle culler and the credit cron. This project models the
parts whose correctness depends on how those programs interleave, and on what happens when a call
fails or its reply is lost. Everything is proved for every run and every input, not for examples; the
examples that do appear show that a condition cannot be dropped.

## The components

**Notebook lifecycle and quotas** (`Notebooks`, `Protocol`, `ProtocolInvariant`, `UnlockedSteps`,
`Quota`, `QuotaEdges`, `Undisturbed`, `Counting`, `RowInvariant`, `RowHistory`, `ObjectHistory`). One step
system for any number of API requests, workers and outside controllers, of any number of users. A step
is one database statement or transaction, or one Kubernetes call. A request's local variables (the rows it read, the totals it
counted) live in its own record, so that what it decides on is a snapshot put together from several
moments. A call whose reply is lost is a step that takes effect and leaves the caller where it was.
Create and start hold the user's profile row lock; stop, delete, workers and the culler hold nothing.
"Running" is measured in two ways: by the slots really taken (the object runs, or a worker may still
bring it up), and by the API's own count taken at one instant (the `strict` reading). What the rows tell
of their workers (`RowInvariant`, `RowHistory`) and the cluster of its writers (`ObjectHistory`) holds in
every run of the code; the quotas need more. `Undisturbed` says what each operation achieves when nobody
gets in its way.

What the surroundings owe the quotas is written down in `Protocol.Env` and `Protocol.FreshName`:

- outside controllers may add the stop annotation, never remove it;
- a name is reused only when no older worker and no older delete still works on it;
- somebody outside removes an object only once its row has reached its last event;
- a call takes effect, if at all, before its caller gives up on it, and a row lock is held until the
  handler ends;
- no more is needed for either count; a stricter form of these rules, in which no older object or stop
  on a reused name is left and outside controllers do not stop a notebook before its row has reached
  its last event, serves only to show that the API's own count then never exceeds its limit.

**Claiming rows** (`Claim`). The retried claim transaction of one worker, beside arbitrary other
transactions and with arbitrary faults.

**Credit ledger** (`Billing`, `BillingRoutines`, `Ledger`, `BillingLock`). The cron's and the API's
billing, each as the branches of the code, on a row updated in place; their common meaning; the books
over whole histories with commits, rollbacks and failing services; and the row lock under which the
writers interleave. Amounts are whole numbers of 10^-15, the scale of the columns, and neither costs
nor balances are negative. Clocks do not run backwards.

**Retrying** (`Retry`, `StopLoop`, `HttpCalls`, `DebitCall`). The two retry combinators with their exact
contract, and three users of it: the cron's conflict-retrying stop, its HTTP calls (with what a retried debit costs
the ledger), and the claim above.

**Small algorithms** (`RateLimiter`, `Fanout`, `AmountText`). The limiter per IP address, the fan-out
of the status listing as a step system with goroutines, semaphore, channel, collector and timeout, and
the text of an amount in a debit request.

`Options` and `Sets` hold what several modules share.

## What came out

- The quotas hold in every interleaving, although every decision is taken on a torn snapshot
  (`Quota.QuotaHolds`). The API's own count, however, can come out above the limit: a create whose
  reply is lost, a stop from outside before the row is applied and a failed status write let the
  worker's cleanup remove a stopped object, and the row behind it counts again
  (`QuotaEdges.EffectiveCountCanExceed`). That is the only way for an unlocked step to raise the count
  (`QuotaEdges.CountRisesExactlyWhenUncovered`), and each time costs at most one
  (`Quota.EffectiveCountHolds`).
- Reusing a name while an older delete on it is still at work can exceed the limit for real
  (`QuotaEdges.ReusedNameCanExceed`). So can a client that goes away while its start is updating the
  object: the handler ends, its lock goes, and the update may land later (`QuotaEdges.LateStartCanExceed`).
- Whatever the API debits without covering the whole debt is lost: it returns without committing, so
  the debit has no counterpart in the row (`Ledger.ApiLosesPartialDebits`).
- The cron rounds amounts up to 10^-10 to zero and the API does not; otherwise the two agree
  (`Billing.RoutinesAgreeExactly`).
- The cron's stop loop can report success although the notebook runs on: after a failed update or a
  failed re-read the next attempt looks at the copy it has stamped itself
  (`StopLoop.SuccessIsFalseExactlyWhenBroken`, `StopLoop.FalseSuccess`).
- A debit that was charged and whose reply was lost is sent again and may be charged again, so one
  debit costs anything up to `MaxAttempts` times its amount (`DebitCall.DebitCostsAtMost`).
- With `MaxAttempts` below one, both retry combinators call nothing and report no error.
- The limiter lets through up to `2 * max(1, rate) - 1` requests in one window length, one less than
  two full bursts, and that many can happen (`RateLimiter.BoundIsMet`).
- A claim whose acknowledgement is lost strands its row: it stays picked and no worker has it
  (`Claim.LostRowIsStranded`).
- The listing and the quota count can disagree about one kind of row only
  (`Fanout.ShownMatchesCounted`).
- Two tests do not match the code, and the model follows the code: `cmd/api/utils_test.go:24-29`
  expects a row without events to be shown as running where `cmd/api/utils.go:90-92` gives opening, and
  `cmd/cron/profile-credit-sync/utils_test.go:13-22` assumes a larger epsilon than
  `cmd/cron/profile-credit-sync/main.go:27`.

## Model

| member | source | states |
|---|---|---|
| `Notebooks.Listing` | cmd/api/k8s.go:299-302 | a name is in the index of the list exactly when some item of the list carries it |
| `Notebooks.ListingTellsStopped` | cmd/api/k8s.go:299-302 | a name is marked stopped exactly when its item carries the stop annotation; of two items with one name the later decides |
| `Notebooks.IndexItems` | cmd/api/k8s.go:299-302 | the loop over the items builds exactly that index, in which each name is marked as its item is annotated |
| `Notebooks.FailedExactly` | cmd/api/utils.go:19-26 | the failure test holds of exactly the five failure events |
| `Notebooks.CountEffectiveRunning` | cmd/api/k8s.go:289-339 | the loop returns, for each kind, how many distinct rows are not failed and have either an object without the stop annotation or no object and no `notebook-applied` |
| `Notebooks.CountSuccessfullyCreated` | cmd/api/k8s.go:253-284 | the loop returns, for each kind, how many distinct rows are not failed and have an object or are not applied yet |
| `Counting.LoopsCountKeys` | cmd/api/k8s.go:253-339 | in whatever order rows and items arrive, the two loops return the counts the protocol reasons about |
| `ProtocolInvariant.StepKeepsInv` | cmd/worker/spawner.go:43-148 | every step of every actor keeps: unique row ids, event lists in the language, one lock holder per user, a row that matches each worker's place in its sequence, no two workers on one row, and settled rows behind the gates of start and delete |
| `RowInvariant.StepKeepsRows` | cmd/worker/spawner.go:43-148 | every step of every actor, in any surroundings, keeps: unique row ids, event lists in the language, no two workers on one row id, own rows that match each worker's place, events that tell the truth about acknowledgements, and the record of creates and cleanups |
| `RowInvariant.ReachableRows` | cmd/worker/spawner.go:43-148 | hence all of this holds in every state of every run of the code, names reused early included |
| `UnlockedSteps.StepShrinks` | cmd/api/handlers.go:357-403 | every step but a user's own create commit and start update leaves that user's running set, created set and rows the same or smaller, and creates objects only under rows not yet applied |
| `UnlockedSteps.StepShrinksUnlessUncovered` | cmd/worker/spawner.go:43-63 | the same for the API's own count in any surroundings, unless the step removes a stopped object under a row that is still on its way |
| `Quota.StepGains` | cmd/worker/spawner.go:43-63 | any step but a user's own create commit and start update shrinks what the user has, and adds to the API's own count at most one, and that only if it uncovers a row |
| `Quota.TornCountCovers` | cmd/api/handlers.go:184-230 | rows read earlier and objects listed now give counts no lower than what runs and exists now |
| `Quota.TornTotalBounded` | cmd/api/handlers.go:219-224 | nor does the total come out above what it was when the rows were read |
| `Quota.OthersCannotRaise` | cmd/api/handlers.go:155-175 | while a request holds a user's lock, no other step can commit a create or a start for that user |
| `Quota.StepKeepsQuota` | cmd/api/handlers.go:146-333 | every step keeps a user's four limits and everything that user's lock holder relies on between its reads and its write; for the API's own count, up to one more for each row uncovered |
| `Quota.ReachableInv` | cmd/api/handlers.go:146-333 | hence every state of every run satisfies the whole invariant |
| `Quota.QuotaHolds` | cmd/api/handlers.go:146-333 | main result: in every reachable state every user's slots and totals, CPU and GPU, are none or within the configured limits; what runs in the cluster exceeds the running limits at most by the objects whose row is gone or failed |
| `Quota.EffectiveCountHolds` | cmd/api/handlers.go:231-240 | main result for the API's own running count: in every reachable state it exceeds the limit at most by the number of steps so far that took a stopped object from under a row of the user on its way; without such a step it is within the limit |
| `Quota.PatientControllersKeepTheCount` | cmd/api/handlers.go:536-554 | where outside controllers wait for the row there is no such step, and the count is within the limit |
| `Quota.RunningIsCovered` | cmd/api/k8s.go:286-288 | every running object of a user is a slot of a live row, or its row is gone or failed |
| `Quota.LockedRunShrinks` | cmd/api/handlers.go:155-230 | over any stretch of a run in which a request holds the lock and does not write, what its user has only shrinks; the API's own count grows at most by the rows uncovered meanwhile |
| `Quota.TornSnapshotIsSafe` | cmd/api/handlers.go:184-230 | rows read at one state and objects listed at a later one give counts that bound the true slots and totals at every later state under the same lock, whatever unlocked steps fall in between, and the API's own count up to the rows uncovered since the list |
| `Quota.CombinedCheckAddsNothing` | cmd/api/handlers.go:231-255 | in every reachable state the create handler refuses exactly when a check for the kind of the request does; the combined check of lines 241-245 never decides |
| `QuotaEdges.CountRisesExactlyWhenUncovered` | cmd/worker/spawner.go:43-63 | a step that takes no quota decision raises a user's own count if and only if it removes a stopped object under a row that has not reached its last event |
| `QuotaEdges.UndisturbedCreate` | cmd/api/handlers.go:146-333 | from any reachable state, a create that nobody disturbs and no check refuses reaches the state with exactly its row added |
| `Undisturbed.UndisturbedStart` | cmd/api/handlers.go:436-600 | from any run, a start of an applied and stopped notebook that the limit allows and nobody disturbs ends with exactly the annotation gone and the lock free |
| `Undisturbed.UndisturbedStartOfRunning` | cmd/api/k8s.go:68-75 | a start of a notebook that runs changes nothing |
| `Undisturbed.UndisturbedStop` | cmd/api/handlers.go:375-402 | a stop of an applied notebook that nobody disturbs ends with exactly its object stopped |
| `Undisturbed.UndisturbedDelete` | cmd/api/handlers.go:634-690 | a delete of an applied notebook that nobody disturbs leaves no row, no object and no volume of that name, and all else as it was |
| `Undisturbed.UndisturbedDeleteOfFailed` | cmd/api/handlers.go:653-667 | a delete of a failed notebook removes the row and touches nothing in the cluster |
| `Undisturbed.GatesAdmitOnly` | cmd/api/handlers.go:655-658 | start and stop pass for rows that end in `notebook-applied` only, delete for these and failed ones only, and remembers which |
| `Undisturbed.UndisturbedSpawn` | cmd/worker/spawner.go:63-148 | a worker that nobody disturbs turns a scheduled row into scheduled, picked, pvc-applied, notebook-applied, with its volume and a running object |
| `Undisturbed.RefusedVolume` | cmd/worker/spawner.go:68-75 | a worker whose volume is refused writes `pvc-apply-failed` and removes object and volume of that name |
| `Undisturbed.RefusedNotebook` | cmd/worker/spawner.go:133-141 | a worker whose object is refused writes `notebook-apply-failed` and removes object and volume |
| `QuotaEdges.EffectiveCountCanExceed` | cmd/api/k8s.go:310-329 | a reachable run with a limit of one in which the API's own count is two |
| `QuotaEdges.ReusedNameCanExceed` | cmd/api/handlers.go:660-688 | a run with a name reused too early in which two slots are taken under a limit of one |
| `QuotaEdges.LateStartCanExceed` | cmd/api/handlers.go:586-598 | a run in which a start is abandoned with its update on the way, another create passes, and the update lands: two slots under a limit of one |
| `RowHistory.EventsOnlyGrow` | cmd/worker/db.go:117-136 | between any two states of any run of the code a row keeps its id, kind and events and only appends, and appends nothing after `notebook-applied` or a failure |
| `RowHistory.EventsInLanguage` | cmd/worker/spawner.go:68-148 | in any surroundings, every reachable event list is scheduled, picked, then the volume's result, then the notebook's; `pvc-applied` and `notebook-applied` mean that create was acknowledged, `pvc-apply-failed` and `notebook-apply-failed` that it was not, and after `notebook-applied` the cleanup never ran |
| `RowHistory.WorkersApart` | cmd/worker/db.go:28-35 | in no state of any run do two workers hold the same row; nor do they share a name, where names are not reused too early |
| `RowHistory.ClaimTurnsPicked` | cmd/worker/db.go:86-101 | every claim in any run finds its row scheduled and leaves it picked |
| `RowHistory.StaysPicked` | cmd/worker/db.go:86-91 | after a claim the row is picked for the rest of the run |
| `RowHistory.ClaimedAtMostOnce` | cmd/worker/db.go:18-114 | no row is claimed twice in any run, whatever replies are lost, whatever is retried and whatever the surroundings do |
| `RowHistory.WorkersHaveClaimed` | cmd/worker/spawner.go:18-33 | a worker at work on a row has an acknowledged claim of its own on it earlier in the run, in any surroundings |
| `ObjectHistory.StepWrites` | cmd/api/k8s.go:16-89 | every write to the cluster gets a version never used before and leaves every other object as it was |
| `ObjectHistory.NoLostUpdate` | cmd/api/k8s.go:16-89 | when the update of a start or stop goes through, in any run, the object is still the one its Get saw: what anyone else wrote in between makes the update fail, so a start never takes away a stop it has not seen |
| `Claim.FetchAndMarkNotebook` | cmd/worker/db.go:12-114 | the call is the retried transaction, whose results the next rows describe, and returns its slice only when that ends without an error |
| `Claim.SelectedIsFree` | cmd/worker/db.go:28-35 | the query returns the first row nobody has picked among those it may look at, and none exactly when there is none |
| `Claim.AttemptKeeps` | cmd/worker/db.go:18-102 | an attempt that will be retried adds at most an unacknowledged claim, and the last attempt adds exactly the row it returns |
| `Claim.AttemptFinds` | cmd/worker/db.go:40-103 | an attempt commits exactly if no fault stands in its way, otherwise asks for another; it returns the first free row and marks that one only, or no row if none is free |
| `Claim.EmptyMeansNothingFree` | cmd/worker/db.go:12-114 | a call that ends well without a row saw only rows picked or gone; one that ends well with a row has the first that was free |
| `Claim.ErrorsAreTriedAgain` | cmd/worker/db.go:18-104 | for every script, an error ends the call only when its attempts or its time run out, and the call ends well exactly if its last attempt met no fault that mattered |
| `Claim.ClaimsAreLostOrReturned` | cmd/worker/db.go:12-114 | for every script of faults and other transactions, the rows claimed by one call are those whose acknowledgement was lost followed by the one returned, all different, at most one per attempt; an error returns none |
| `Claim.LostRowIsStranded` | cmd/worker/db.go:98-101 | after a lost acknowledgement the loop claims and returns another row and the first stays picked |
| `Billing.CronSettles` | cmd/cron/profile-credit-sync/main.go:289-370 | if the balance is read and any debit agreed to, the cron settles min(balance, total): pending drops by it, paid grows by it, and access means that nothing is pending |
| `Billing.ApiSettles` | cmd/api/utils.go:277-345 | the same for the API, written separately |
| `Billing.RoutinesAgreeExactly` | cmd/api/utils.go:277-355 | from no access and with the same answers the two write identical rows if and only if neither the metered cost nor a balance that matters lies in the range only the cron rounds to zero |
| `BillingRoutines.ProfileRow.constructor` | db.sql:33-45 | a new profile has access, owes nothing and has paid nothing |
| `BillingRoutines.ProfileRow.Update` | cmd/cron/profile-credit-sync/main.go:380-387 | the update replaces all five billing columns |
| `BillingRoutines.ProfileRow.ExecuteProfileProcessing` | cmd/cron/profile-credit-sync/main.go:210-400 | the cron's statements change the row to the committed bill or leave it alone, and take from the service what the ledger says; a committed row owes or has paid what was metered, if the last synchronization was 180 seconds ago or more |
| `BillingRoutines.ProfileRow.TryRestoreGpuAccess` | cmd/api/utils.go:238-367 | the API's statements compute the bill inside the transaction, with what was metered if the last synchronization was 180 seconds ago or more, and leave the row itself unchanged |
| `BillingRoutines.ProfileRow.GpuRequest` | cmd/api/handlers.go:257-333 | a GPU request writes the row only if access was restored and everything after it succeeds; what the service took stays taken |
| `Ledger.CommittedCredit` | cmd/cron/profile-credit-sync/main.go:333-366 | a committed attempt credits what it asked for if the service agreed and nothing otherwise, which is all the service took but what it took beyond its word |
| `Ledger.BillConserves` | cmd/cron/profile-credit-sync/main.go:257-370 | whatever the service answers, a bill moves its cost into pending or paid and loses none; the cost is 0 if the last synchronization is under 180 seconds ago and otherwise what was metered, but for the 10^-10 the cron rounds away |
| `Ledger.BillsExactlyWhenAnswered` | cmd/api/utils.go:241-301 | there is a bill exactly when everything it needs was answered; for the API, which comes without access only, that is also the token and the balance unless nothing is owed |
| `Ledger.AsksWhatIsOwedAndThere` | cmd/api/utils.go:286-345 | either routine asks the service for min(balance, total), however the debit ends; access comes only with a confirmed debit of the whole total, and the cron stops GPU notebooks exactly when the balance is short |
| `Ledger.ConfirmedDebitIsRecorded` | cmd/cron/profile-credit-sync/main.go:333-366 | paid credit and last_sync_balance change exactly when a debit was asked for and confirmed, by what was asked and to what the service said; access comes with a confirmed debit of everything owed and, with nothing owed, the cron leaves it |
| `Ledger.BillKeepsAccess` | cmd/api/utils.go:280-345 | in both routines access and no debt stay equivalent |
| `Ledger.NextKeepsBooks` | cmd/cron/profile-credit-sync/main.go:380-399 | one attempt, committed or rolled back, keeps conservation, access and the tiling |
| `Ledger.BooksBalance` | cmd/cron/profile-credit-sync/main.go:225-397 | main result: over every history of cron runs and API requests, paid + pending is what committed attempts metered; debits are paid credit, plus what attempts that rolled back took, plus what the service took beyond its word in the others; and access holds exactly without debt |
| `Ledger.DebitsAreAccountedFor` | cmd/api/handlers.go:257-333 | the debit equation over any run from any books: each attempt that did not commit counts with all it took, each that did with its credit and its surplus |
| `Ledger.ExactDebitsArePaidOrRolledBack` | cmd/api/handlers.go:271-276 | if the service takes exactly what it confirms, debits are paid credit plus the debits of the attempts that rolled back |
| `Ledger.MeteredIntervalsTile` | cmd/cron/profile-credit-sync/main.go:402-413 | in the whole seconds the metering service is asked in, the intervals of committed attempts are ordered and disjoint, and neighbours share their boundary; nothing is charged for an interval measured under 180 seconds and every other is charged as metered |
| `Ledger.EveryIntervalIsCharged` | cmd/cron/profile-credit-sync/main.go:254-281 | the same of each interval by itself, the last one included |
| `Ledger.MeteredIntervalsSpan` | cmd/cron/profile-credit-sync/main.go:380-387 | the intervals run from the first to the current synchronization |
| `Ledger.LossIsRollback` | cmd/api/handlers.go:263-276 | if the service takes exactly what it confirms, an attempt loses money if and only if its debit went through and its update did not |
| `Ledger.ApiLosesPartialDebits` | cmd/api/handlers.go:271-276 | the API's debit survives if and only if it covered the whole debt and the rest of the request succeeded; a partial debit is lost in full |
| `Ledger.LostIsSumOfLosses` | cmd/api/handlers.go:263-333 | over any history debits exceed credit by the sum of the attempts' losses, which is what was rolled back and what was overcharged |
| `Ledger.ApiAlwaysHasADebt` | cmd/api/utils.go:286 | in every reachable row without access there is a debt, so the API's branch without a deduction is never taken |
| `BillingLock.StepKeepsSerial` | cmd/cron/profile-credit-sync/main.go:225-241 | a writer's read, calls and write keep the row equal to that of the finished attempts, one after the other |
| `BillingLock.EveryInterleavingIsSerial` | cmd/api/handlers.go:155-166 | in every reachable state of every interleaving no committed update is lost |
| `BillingLock.BooksBalanceConcurrently` | cmd/cron/profile-credit-sync/main.go:225-397 | conservation and the debit equation hold in the middle of any interleaving, counting what the lock holder's calls have taken so far |
| `Retry.WithExponentialBackoff` | pkg/utils/backoff.go:23-47 | for every operation script the loop stops at the first success or stop, the first cancelled wait or the last attempt, hands on what that call said, and waits min(Initial * Factor^(k-1), Max) before attempt k + 1 |
| `Retry.WithLinearRetry` | pkg/utils/backoff.go:48-73 | the same with min(Initial + (k-1) * Increment, Max) |
| `Retry.RetriedIsUnique` | pkg/utils/backoff.go:23-73 | that contract determines the number of calls, the final state and the outcome |
| `Retry.NextLinearDelay` | pkg/utils/backoff.go:67-70 | adding and capping step by step is capping the closed form |
| `Retry.NextBackoffDelay` | pkg/utils/backoff.go:40-43 | multiplying and capping step by step is capping the closed form |
| `Retry.LinearWaitingBound` | pkg/utils/backoff.go:53-70 | all waits together are at most (MaxAttempts - 1) times the larger of Initial and Max |
| `Retry.BackoffWaitingBound` | pkg/utils/backoff.go:28-43 | the same for the exponential loop |
| `StopLoop.StopNotebook` | cmd/cron/profile-credit-sync/k8s.go:118-172 | the stop is the read-modify-write closure under the retry contract |
| `StopLoop.AttemptRelists` | cmd/cron/profile-credit-sync/k8s.go:152-165 | after a conflict the copy is as good as a fresh list |
| `StopLoop.CleanReplyIsTrue` | cmd/cron/profile-credit-sync/k8s.go:123-171 | an attempt on a copy as listed that reports no error leaves the object stopped or gone |
| `StopLoop.BrokenThenSilent` | cmd/cron/profile-credit-sync/k8s.go:125-128 | after any other failure the next attempt reports success without a call |
| `StopLoop.LeavesRunningExactly` | cmd/cron/profile-credit-sync/k8s.go:149-168 | those faults, and no others, end an attempt in an error with a stamped copy in hand and the object running |
| `StopLoop.SuccessIsFalseExactlyWhenBroken` | cmd/cron/profile-credit-sync/k8s.go:118-172 | main result: for every fault script and every other writer, success is reported with the object running if and only if there was an attempt before the last and its faults were of one kind: the due update failed without effect; it failed otherwise than by a conflict on an object that ran on; or the re-read after a conflict failed and the object ran on |
| `StopLoop.SuccessIsTrueWithoutBrokenAttempts` | cmd/cron/profile-credit-sync/k8s.go:150-165 | if update failures are conflicts with a successful re-read or a not-found, success means stopped or gone |
| `StopLoop.UpdateOnlyAddsStop` | cmd/cron/profile-credit-sync/k8s.go:130-149 | an update that takes effect keeps every annotation other writers had committed and adds the stop |
| `StopLoop.NoErrorExactly` | cmd/cron/profile-credit-sync/k8s.go:123-171 | an attempt reports no error exactly if the copy is stopped, its update goes through, or the object is gone after a conflict; every other asks for another attempt |
| `StopLoop.ErrorsAreTriedAgain` | cmd/cron/profile-credit-sync/k8s.go:132-167 | an error ends the loop only when its attempts or its time run out |
| `StopLoop.UndisturbedStop` | cmd/cron/profile-credit-sync/k8s.go:125-170 | a stop that nobody disturbs takes one call and leaves the object with what it had and the stop time |
| `StopLoop.StoppedIsLeftAlone` | cmd/cron/profile-credit-sync/k8s.go:106-128 | an object listed with a stop that is not empty is left alone |
| `StopLoop.FalseSuccess` | cmd/cron/profile-credit-sync/k8s.go:144-167 | a concrete run that reports success with the notebook running |
| `HttpCalls.Call` | cmd/cron/profile-credit-sync/main.go:643-716 | a call succeeds exactly when the retried closure ends without error on a 2xx whose body parses |
| `HttpCalls.SentSoFar` | cmd/cron/profile-credit-sync/main.go:670-684 | each attempt sends one request and only the first 401 asks for a new token |
| `HttpCalls.CallMeetsItsBounds` | cmd/cron/profile-credit-sync/main.go:520-627 | for every script at most MaxAttempts requests and one refresh, and success if and only if the last response is a 2xx whose body parses |
| `HttpCalls.TriedAgainExactly` | cmd/cron/profile-credit-sync/main.go:549-606 | the call goes on after exactly broken connections, unread bodies, 5xx and the first 401 with a token to be had, until its attempts or its time run out |
| `HttpCalls.FirstSuccessCounts` | cmd/cron/profile-credit-sync/main.go:549-627 | after any such failures the first 2xx with a body that parses, within the attempts, is the call's result |
| `HttpCalls.NothingAfterSuccess` | cmd/cron/profile-credit-sync/main.go:600-627 | no request follows a success, so a confirmed debit is never sent again |
| `DebitCall.SuccessIsCharged` | cmd/cron/profile-credit-sync/main.go:520-627 | a debit call that succeeds was charged at least once, and no call is charged more than MaxAttempts times |
| `DebitCall.DebitCostsAtMost` | cmd/cron/profile-credit-sync/main.go:320-366 | main result: an attempt of the ledger whose debit is sent this way takes at most MaxAttempts times what it asked for, and exactly what was confirmed if and only if no request but a successful last one was charged |
| `RateLimiter.IpRateLimiter.constructor` | cmd/api/utils.go:154-161 | a new limiter knows no address |
| `RateLimiter.IpRateLimiter.IsAllowed` | cmd/api/utils.go:163-189 | the method is the step the histories below are built of, and its answer is theirs |
| `RateLimiter.WindowsExist` | cmd/api/utils.go:163-189 | after any history with a clock that does not run backwards the allowed times of an address fall into windows of at most max(1, rate) requests that open at least a window length apart, and its entry describes the last |
| `RateLimiter.AtMostTwoBursts` | cmd/api/utils.go:163-189 | main result: no interval of one window length holds more than 2 * max(1, rate) - 1 allowed requests of an address |
| `RateLimiter.BoundIsMet` | cmd/api/utils.go:177-188 | every limiter with rate >= 1 and a window of at least two clock ticks has a history that reaches that bound |
| `RateLimiter.RefusalIsDeserved` | cmd/api/utils.go:177-188 | a refused address had at least max(1, rate) requests allowed less than a window length ago |
| `RateLimiter.OthersDoNotMatter` | cmd/api/utils.go:163-189 | what is allowed for an address is what a history of its own requests alone would allow |
| `Fanout.NotebooksToCheck` | cmd/api/handlers.go:899-919 | the loop picks exactly the rows whose last event is `notebook-applied`, in order |
| `Fanout.FillStates` | cmd/api/handlers.go:977-993 | every row gets stopped, running, opening, failed or orphaned exactly as its last event and its reply say: the stop annotation, ready replicas above 0, neither, a failure, or applied without an object |
| `Fanout.StatesMeanWhatTheySay` | cmd/api/utils.go:84-111 | the state function meets that reading, one equivalence per state |
| `Fanout.ShownMatchesCounted` | cmd/api/utils.go:84-111 | a row is shown as opening or running exactly when the quota counts it, if and only if it is applied or failed or its object is not stopped |
| `Fanout.StepKeepsInv` | cmd/api/handlers.go:891-975 | every step of every goroutine, of the collector and of the clock keeps the channel sound, the semaphore exact and, while the context lives, every reply delivered |
| `Fanout.AtMostThreeInFlight` | cmd/api/handlers.go:896-938 | in every reachable state at most three fetches are with Kubernetes |
| `Fanout.ThreeMayFly` | cmd/api/handlers.go:896-929 | while fewer than three hold a slot, whoever waits can take one |
| `Fanout.SendersNeverBlock` | cmd/api/handlers.go:895-949 | in every reachable state a goroutine with its reply in hand finds room in the channel |
| `Fanout.NeverStuck` | cmd/api/handlers.go:923-975 | until the handler has answered and every goroutine has ended, some step other than a timeout is possible |
| `Fanout.EveryRunEnds` | cmd/api/handlers.go:923-975 | a page of n rows takes at most 6n + 2 steps in any order |
| `Fanout.OrderDoesNotMatter` | cmd/api/handlers.go:885-993 | main result: without a timeout the answer is the sequential one in every arrival order: an error exactly when some fetch fails otherwise than by not-found, and else every row with the state its last event and its object mean; with a timeout it is that answer or an error |
| `AmountText.FormatAmount` | cmd/api/billing.go:105-110 | main result: for every amount the text reads back as the same amount, is a number of RFC 8259, section 6, and has no trailing zero unless that is its only fraction digit |
| `AmountText.CanonicalIsUnique` | cmd/cron/profile-credit-sync/main.go:529-534 | an amount has only one such text, so the printed one is determined |
| `AmountText.TextsDiffer` | cmd/api/billing.go:105-110 | two amounts never share a text |
| `AmountText.ParsedIsJson` | cmd/api/billing.go:112-116 | whatever the reader accepts is a number of that grammar |

## Left out

- Floating point: amounts and factors are whole numbers, and the rounding of float64 is not modelled.
- Negative balances and costs: the model takes both as non-negative, which the code does not check.
- HTTP, JSON decoding, JWT, Keycloak, CORS, logging, routing, and the Postgres, Kubernetes and OpenCost clients: each is a nondeterministic answer or a step on abstract state.
- Bodies of objects: an object is its stop annotation and version in the protocol, its annotations in the stop loop; manifests and the commented-out upload code are not modelled.
- Calls that take effect after their caller has given up on them, and commits that land after their connection was reported broken, but for the one run of `QuotaEdges.LateStartCanExceed`.
- The handlers and the worker as single methods: their statements are the steps of `Protocol`, so that others can come in between; the polling loop and its sleeps are the possibility of another claim.
- `CheckGPUResource`: a row's kind is part of the row.
- `createNotebook`: the checks of name, type and role before the transaction, and the creation of a missing profile, are not modelled; a GPU request turned away by billing is the request ending.
- `Quota.QuotaHolds`: needs the environment rules of `Protocol.Env`; two runs, of a name reused too early and of a late update, show what happens without them.
- `Quota.CombinedCheckAddsNothing`: needs limits that are not negative.
- `QuotaEdges.UndisturbedCreate` and the lemmas of `Undisturbed`: what an operation nobody disturbs achieves, not that one in competition finishes.
- Liveness of stuck rows: a worker whose status write fails leaves its row at picked or pvc-applied, and the code makes no promise there.
- `Ledger.BooksBalance`: follows one profile row; rows of different users share nothing but the service.
- `Retry.WithExponentialBackoff`: the factor is a natural number of at least one.
- `DebitCall.DebitCostsAtMost`: the API sends a debit once, so for it `MaxAttempts` is one.
- `HttpCalls.Call`: the balance and the debit call share one model; marking failed requests as resolved is not modelled.
- `RateLimiter.IpRateLimiter.IsAllowed`: the mutex is taken as given, and forgotten addresses are never removed, as in the code.
- `Fanout.OrderDoesNotMatter`: the retries inside one fetch are part of the fetch.
- Pagination and filters of `listNotebooks`: the order is by created_at alone, and ties are left to the database.
- The loops of `processProfiles` and `stopAllGPUNotebooksInNamespace`, and `hasGPUResource`: one call after the other, each tested on its own result.
- `CountRunningNotebooks`, `getClientIP` and the string helpers: single branches.
- Bookings, the slot-lifecycle controller and the token sidecar are not part of this model.
