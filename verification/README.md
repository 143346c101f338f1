# Verified model of the 0G serving broker

This project models two brokers and proves properties of the model with Dafny 4.11:

* the **fine-tuning broker**, a task pipeline of three stage services, a task creator, user
  cancellation, a settlement ticker and a process that may restart at any moment, all of them
  reading and writing one task table and one on-chain flag;
* the **inference broker**, which meters the responses of a model, admits requests against a locked
  balance, and settles the accumulated fees with a contract in previewed and executed batches;

and four smaller algorithms they rely on: the mirrored account table, the nonce counter of chunked
file encryption, gas price escalation, and the schedule of the disk cleanup.

`dafny verify dfyconfig.toml` checks everything.

## Layout

| file | content |
|---|---|
| `TaskTable.dfy` | the task table: each operation as a function on tables and as a method of `TaskDb` that updates in place |
| `Pipeline.dfy` | the pipeline as a state machine; a step is one database call, contract call or lock operation |
| `PipelineInvariants.dfy` | what every step keeps |
| `PipelineRuns.dfy` | what holds in every run |
| `PipelineLocks.dfy` | who holds the mutexes, who touches the on-chain flag, and when a task may advance, in every run |
| `PipelineWitnesses.dfy` | runs that exist: a task all the way through, a paid task that fails, a cancellation that hits another task |
| `PipelineRetries.dfy` | how often a task is claimed and moved, and exactly when the retry bound holds |
| `PipelineComponents.dfy` | the components as sequential code (`Broker`), each proved to walk through steps of the state machine |
| `Requests.dfy` | the request table, its queries and updates, and the law tying fees to token counts |
| `Metering.dfy` | the loop over a response, and what a request is charged for |
| `Admission.dfy` | the balance check, and every interleaving of checks, creation, metering, settlement and balance changes |
| `SettlementPlan.dfy` | grouping, batched preview, the cut for users short of funds |
| `SettlementRound.dfy`, `SettlementLaws.dfy` | one settlement round as functions, and its theorems |
| `SettlementReplies.dfy` | what a round does to each request, read off the contract's replies |
| `SettlementFailures.dfy` | rounds in which a call fails after an earlier one was paid |
| `SettlementEngine.dfy` | the settlement loops (`Settler`), up to the whole settlement of ten rounds |
| `AccountMirror.dfy` | paged listing and the three-way update of the user table |
| `FileEncryption.dfy` | the counter incremented in place and the layout of the encrypted file |
| `Transactions.dfy` | gas escalation and waiting for a receipt |
| `CleanupSchedule.dfy` | which tasks the disk cleanup reaches |

## What the model assumes

* Contract calls take effect before they return and have none when they report an error; database
  writes do not fail, except for key conflicts, which are modelled.
* Integers are unbounded: token counts and fees do not overflow 64 bits.  Counts and prices are not
  negative; prices are constant.
* Request hashes are unique, users are spelled in one canonical way (the account mirror folds case
  itself), one settlement is under way at a time, and the clock is read once per settlement round.
* The contract is a parameter: its replies to previews and settlements are arbitrary.  What it is
  paid by a call is the totals of the items it reports with status 0.  Theorems say when they need it
  to report on the users of its own batch only and on none twice (`Honest`), and when they need it to
  report on every item (`Complete`).
* GORM's struct updates leave out zero values; this is part of the model (`NonZero`, `Patch`, `Merge`).

## Where the code falls short of what one would expect

Each point is a theorem about the code as it is.

* A cancellation filters by user; the identifier in the request is not used.  There is a run after
  which it fails a different task than the one named (`CancelCanHitAnotherTask`), and it leaves other
  rows alone exactly when the user has no other cancellable row (`CancelTouchesOnlyRequested`).  It is
  harmless to other users and touches one row at most only because no user ever has two unfinished
  tasks (`CancelChangesAtMostOneRow`).
* The retry path writes the progress first and the counter second.  A poller that fetches the row in
  between lets a task be claimed more often than the limit allows.  `BoundHoldsIff` shows for each
  stage that the bound holds in every run only for a limit of zero, `ClaimsAndMovesAreBounded` that it
  holds for any limit in runs where no poller fetches between the two writes.
* The setup service takes its retry limit from the finalizer's setting (`Config.MaxRetries`).
* The settlement retry counter never moves, because its compare-and-swap goes from Init to Init; and
  a settlement that is given up counts as settled in its tick, because `trySettle` shadows its error
  (`TickStaysWithinBatch`, `Broker.TrySettle`).
* A task that has been paid for ends as failed exactly when the process restarts before the payment is
  recorded (`PaidFailsIff`), and unless nothing is ever settled there is a run in which that happens
  (`PaidTaskCanFailIff`).
* The broker deletes the requests of an item that the contract does not report at all, as if it had
  been paid (`SettledIffPaidOrSilent`).  A round conserves fees exactly when the contract is silent on
  no item that costs something (`RoundConservesIff`).
* Checks of one user that run at the same time can admit more than the balance covers, by up to
  (m - 1) reservations for m requests in flight; the bound is tight (`ExposureIsBounded`,
  `BoundIsReached`).
* A streamed response without its end marker is never charged (`ChargedIffEnded`).
* When a later execution batch fails, the requests that earlier batches were paid for stay on the table
  and are listed again (`KeptIsListedAgain`).  A round whose items all cost something can end that way
  exactly when it sends more than one batch (`ChargesAndKeepsIff`); the amount is part of the balance of
  the whole settlement (`ChargedAndKept`).
* A gas price below ten is never raised (`ReachesCapIff`).

One remark on a function alone: the update with reported usage would leave a row whose fee is below its
counts if it met a row that already has counts and dropped a zero (`UsageKeepsFeeLaw` gives the exact
condition, `RepeatedUsageBreaksFeeLaw` an input).  The broker never calls it so: it writes each request
once, and in every run fees match counts (`FeesMatchCounts`).

## Model

| member | source | states |
|---|---|---|
| `TaskTable.TaskDb.GetNextTask` | api/fine-tuning/internal/db/service.go:40-44 | returns no row exactly when none is in the state, and otherwise one of the oldest |
| `TaskTable.TaskDb.ListTasks` | api/fine-tuning/internal/db/service.go:119-135 | every row in the state exactly once, oldest first |
| `TaskTable.TaskDb.UpdateTask` | api/fine-tuning/internal/db/service.go:137-140 | only a row that has not failed changes, and only in the non-zero column given |
| `TaskTable.TaskDb.UpdateTaskProgress` | api/fine-tuning/internal/db/service.go:142-153 | a compare-and-swap: succeeds, and changes anything, exactly when the row is in the expected state |
| `TaskTable.TaskDb.CancelTask` | api/fine-tuning/internal/db/service.go:155-172 | fails every cancellable row of the user and no other; an error exactly when there is none |
| `TaskTable.TaskDb.MarkInProgressTasksAsFailed` | api/fine-tuning/internal/db/service.go:180-186 | the startup sweep fails exactly the unfinished rows |
| `TaskTable.TaskDb.HandleFailure` | api/fine-tuning/internal/db/service.go:188-200 | two writes on the retry path, failure without retries left, nothing when the row has moved |
| `TaskTable.TaskDb.UnFinishedTaskCount` | api/fine-tuning/internal/db/service.go:103-117 | the number of the user's unfinished rows |
| `TaskTable.TaskDb.PendingTrainingTaskCount` | api/fine-tuning/internal/db/service.go:71-89 | the number of rows up to and including training |
| `TaskTable.CancelTouchesOnlyRequested` | api/fine-tuning/internal/db/service.go:155-172 | a cancellation naming a task leaves all other rows alone if and only if the user has no other cancellable row |
| `PipelineWitnesses.CancelCanHitAnotherTask` | api/fine-tuning/internal/ctrl/task.go:71-77 | there is a run after which a request that names one task fails another |
| `PipelineInvariants.StepKeepsInv` | api/fine-tuning/internal/services/service.go:113-237 | every step of every component keeps ownership, admission, flag and settlement invariants |
| `PipelineRuns.OneUnfinishedPerUser` | api/fine-tuning/internal/ctrl/task.go:32-55 | in every run, under every interleaving, a user has at most one unfinished task |
| `PipelineRuns.CancelChangesAtMostOneRow` | api/fine-tuning/internal/db/service.go:155-172 | at every moment of every run a cancellation changes at most one row |
| `PipelineRuns.PendingIsBounded` | api/fine-tuning/internal/ctrl/task.go:39-55 | pending tasks never exceed the queue size plus one, although workers act between count and insert |
| `PipelineRuns.ProgressMovesAlongEdges` | api/fine-tuning/internal/services/service.go:113-237 | no row is lost or reassigned; progress moves along pipeline, retry and failure edges only |
| `PipelineRuns.FinalIsForever` | api/fine-tuning/internal/db/service.go:137-140 | failed and finished are never left, although updates guard only against failed |
| `PipelineRuns.CancelWins` | api/fine-tuning/internal/db/service.go:155-172 | after a cancellation of a waiting or claimed task it is failed for the rest of the run |
| `PipelineRuns.ExactlyOneOwner` | api/fine-tuning/internal/services/service.go:113-132 | a task in an intermediate state has exactly one live claim, of the right stage |
| `PipelineRuns.OnlyOwnerResolves` | api/fine-tuning/internal/services/service.go:148-237 | only its owner, a cancellation during setup or a restart takes a task out of an intermediate state |
| `PipelineRuns.ClaimResolvesOnce` | api/fine-tuning/internal/services/service.go:148-237 | a resolved claim is never live again |
| `PipelineRuns.OccupiedWhileTraining` | api/fine-tuning/internal/services/executor.go:74-117 | while a task trains and its goroutine is past the occupation, the on-chain flag is set |
| `PipelineLocks.FlagChangesOnlyBy` | api/fine-tuning/internal/services/executor.go:74-117 | in every run the flag is set only by a training that read it as unset, and cleared only by a restart or by someone entitled to while no task trains |
| `PipelineLocks.ReleaserIsEntitled` | api/fine-tuning/internal/services/executor.go:74-94 | whoever holds the mutex to give up the flag is the idle poller or the goroutine of a training on its way out |
| `PipelineLocks.HolderKeepsMutex` | api/fine-tuning/internal/services/service.go:113-115 | a mutex that is held stays with its holder until it is let go |
| `PipelineLocks.PollerReleasesWhenIdle` | api/fine-tuning/internal/services/executor.go:87-90 | the poller starts to give up the flag only when no task is set up and the mutex is free |
| `PipelineLocks.AdvancesOnlyWhenDone` | api/fine-tuning/internal/services/service.go:148-164 | a task advances only when the goroutine of its own claim, of that stage, has returned without an error |
| `PipelineRuns.PoolIsBounded` | api/fine-tuning/internal/services/service.go:134-146 | in every run a stage has no more jobs under way than its own pool has workers, and one with none configured |
| `PipelineRuns.PaidCounts` | api/fine-tuning/internal/services/settlement.go:253-264 | the log of payments holds each task as often as it was paid for |
| `PipelineRuns.PaidExactlyOnce` | api/fine-tuning/internal/services/settlement.go:85-138 | no task is paid for twice; a finished one was paid for once; a paid one is finished, being recorded, or was hit by a restart |
| `PipelineRuns.PaidFailsIff` | api/fine-tuning/internal/services/settlement.go:253-264 | in every run a task that was paid for has failed if and only if the process restarted between its payment and the record of it |
| `PipelineWitnesses.PaidTaskCanFailIff` | api/fine-tuning/internal/services/settlement.go:85-138 | some run ends with a paid and failed task if and only if the batch size is positive |
| `PipelineWitnesses.ReachStage` | api/fine-tuning/internal/services/service.go:113-237 | for every configuration a run brings a task to the start of each stage |
| `PipelineRuns.TickListsAreDisjoint` | api/fine-tuning/internal/services/settlement.go:85-113 | at every moment of a tick neither list holds a task twice and none is in both |
| `PipelineRuns.TickStaysWithinBatch` | api/fine-tuning/internal/services/settlement.go:100-110 | the slice bound is never negative, a tick counts at most a batch, the settlement retry counter stays zero |
| `PipelineRetries.ClaimsAndMovesAreBounded` | api/fine-tuning/internal/db/service.go:188-230 | with failure handling seen as one step: a training task is claimed at most its executor limit plus one times, setup and delivery at most the finalizer limit plus one; moves are at most twice the sum over the stages |
| `PipelineRetries.BoundFailsWithoutOrder` | api/fine-tuning/internal/db/service.go:188-200 | for every stage, positive limit and pool size there is a run with more claims than the bound |
| `PipelineRetries.BoundHoldsIff` | api/fine-tuning/internal/db/service.go:188-230 | for every stage the bound on claims holds in every run if and only if the limit is zero |
| `PipelineRetries.NoRetriesOneClaim` | api/fine-tuning/internal/db/service.go:188-200 | without retries a stage claims a task at most once, in every run |
| `PipelineComponents.ReachedKeepsInv` | api/fine-tuning/internal/services/service.go:79-111 | whatever the sequential components do keeps the pipeline's invariants |
| `PipelineComponents.Broker.CreateTask` | api/fine-tuning/internal/ctrl/task.go:32-55 | accepted if and only if the user has no unfinished task, the queue is not over its size, and it is empty or the user waits; each refusal names its own check |
| `PipelineComponents.Broker.CancelTask` | api/fine-tuning/internal/ctrl/task.go:71-77 | one step of the state machine |
| `PipelineComponents.Broker.FetchNextTask` | api/fine-tuning/internal/services/service.go:113-132 | claims the oldest waiting task and creates its claim with the counter read |
| `PipelineComponents.Broker.ProcessTask` | api/fine-tuning/internal/services/service.go:148-164 | a claimed row moves to the next state exactly if its goroutine did the work in time, for a training also with the service occupied; otherwise it fails or goes back by the limit of its stage; the goroutine's release never clears the flag |
| `PipelineComponents.Broker.HandleTaskFailure` | api/fine-tuning/internal/services/service.go:208-225 | signature errors fail the task; otherwise a training task read with n retries fails from the executor limit on and else waits in SetUp with n + 1, and setup and delivering tasks likewise by the finalizer limit; the handler's writes are two steps |
| `PipelineComponents.Broker.Execute` | api/fine-tuning/internal/services/service.go:193-206 | succeeds exactly when the row is still in the stage's state, the service could be occupied, and the body succeeded |
| `PipelineComponents.Broker.ReleaseService` | api/fine-tuning/internal/services/executor.go:96-117 | the flag is given up exactly when it was set, nothing is waiting or pending, and no call fails |
| `PipelineComponents.Broker.HandleNoTask` | api/fine-tuning/internal/services/executor.go:87-90 | the idle poller releases the flag under the same condition |
| `PipelineComponents.Broker.OccupyServiceTrue` | api/fine-tuning/internal/contract/service.go:28-38 | reads the flag and writes only if it differs; on success it is set |
| `PipelineComponents.Broker.OccupyServiceFalse` | api/fine-tuning/internal/contract/service.go:28-38 | reads the flag and writes only if it differs; on success it is cleared |
| `PipelineComponents.Broker.ProcessPendingUserAckTasks` | api/fine-tuning/internal/services/settlement.go:140-187 | moves exactly the acknowledged delivered tasks on, and returns exactly those whose acknowledgement is overdue, oldest first |
| `PipelineComponents.Broker.SettleAll` | api/fine-tuning/internal/services/settlement.go:91-98 | settles every task of a list once, in order, and counts exactly those that `trySettle` reports as settled |
| `PipelineComponents.Broker.TrySettle` | api/fine-tuning/internal/services/settlement.go:115-138 | a paid task is finished; a failed payment leaves the row alone with retries left and fails it without, and it is the failed row that counts as settled |
| `PipelineComponents.Broker.ProcessFinishedTasks` | api/fine-tuning/internal/services/settlement.go:85-113 | the table and the count after a tick: acknowledgements first, then a batch of the oldest acknowledged tasks, then the oldest overdue ones in the room the successes left |
| `PipelineComponents.SettledRows` | api/fine-tuning/internal/services/settlement.go:208-267 | settling a list finishes exactly the rows whose payment went through and fails those without retries left |
| `PipelineComponents.TickRow` | api/fine-tuning/internal/services/settlement.go:85-113 | what one tick does to each row: acknowledged ones are settled up to the batch, overdue ones in the room left, acknowledgements are recorded, every other row stays |
| `PipelineComponents.TickCount` | api/fine-tuning/internal/services/settlement.go:85-113 | a tick counts the tasks of its two lists that were paid for or given up |
| `PipelineComponents.Broker.StartUp` | api/fine-tuning/cmd/server/main.go:244-250 | the startup is the restart step: unfinished tasks fail and no claim survives |
| `Requests.UsageKeepsFeeLaw` | api/inference/internal/ctrl/chatbot.go:351-375 | writing reported counts leaves fee and counts consistent if and only if no zero count is dropped in favour of a costly old one |
| `Requests.FallbackKeepsFeeLaw` | api/inference/internal/ctrl/chatbot.go:380-405 | the same for the word count |
| `Requests.RepeatedUsageBreaksFeeLaw` | api/inference/internal/db/request.go:124-136 | a second, empty report breaks the law |
| `Requests.UnsettledFeeIsSumOfFees` | api/inference/internal/db/request.go:155-182 | the aggregate over count columns is the sum of the fees of the user's open rows |
| `Requests.UnsettledFeeGrows` | api/inference/internal/db/request.go:155-182 | each unprocessed row of the user adds its two counts times their prices, and no other row adds anything |
| `Requests.RequestDb.CalculateUnsettledFee` | api/inference/internal/db/request.go:155-182 | computes the aggregate, which under the fee law is the sum of the fees |
| `Requests.RequestDb.UpdateAccountWithUsage` | api/inference/internal/ctrl/chatbot.go:351-375 | only the row of the request changes: its fees become the price of the reported counts, its counts the reported ones that are not zero |
| `Requests.RequestDb.UpdateAccountWithOutput` | api/inference/internal/ctrl/chatbot.go:380-405 | fails, changing nothing, exactly without a row whose input fee parses; otherwise only that row changes, to the price of the words on top of its input fee |
| `Requests.RequestDb.CreateRequest` | api/inference/internal/db/request.go:138-141 | a row is appended exactly when its hash is new, so hashes stay unique |
| `Metering.DecodeStream` | api/inference/internal/ctrl/chatbot.go:214-241 | the last usage reported before the end marker, else the words of the text of all chunks before it; nothing without a marker or after a broken line |
| `Metering.EndedStreamCharge` | api/inference/internal/ctrl/chatbot.go:214-241 | a stream that ends is charged for the last usage before its end, or without any for the words of its text |
| `Metering.DecodeAndProcess` | api/inference/internal/ctrl/chatbot.go:197-251 | the request's first response leaves in its row the prompt and completion counts last reported before the end marker, or the words of the text, and their price; other rows stay; fails exactly on a broken response or when words cannot be added to the row |
| `Metering.ChargedIffEnded` | api/inference/internal/ctrl/chatbot.go:214-241 | a stream is charged if and only if it has an end marker with no broken line before it |
| `Metering.WordsConcat` | api/inference/internal/ctrl/chatbot.go:380-383 | a word broken over two chunks counts once |
| `Metering.OneCharacter` | api/inference/internal/ctrl/chatbot.go:380-383 | a single character is a word unless it is one of the white space characters of Unicode |
| `Metering.FirstChargeIsExact` | api/inference/internal/ctrl/chatbot.go:351-405 | the first charge leaves the charged counts in the row and their exact price as its fee |
| `Admission.BalanceCache.ValidateBalanceAdequacy` | api/inference/internal/ctrl/request.go:188-255 | admits if and only if the cached balance, or else the refreshed one, covers unsettled fee, estimate and a million output tokens, and says by how much it falls short otherwise; the cache changes only on the second look |
| `Admission.CoversMillionTokens` | api/inference/const/const.go:33-34 | a balance passes if and only if it pays, on top of what is unsettled and estimated, any response of up to a million output tokens |
| `Admission.AdmissionIsAStep` | api/inference/internal/ctrl/request.go:188-255 | what the check admits is a step of the interleaving, in the state of the look that admitted |
| `Admission.FeesMatchCounts` | api/inference/internal/ctrl/chatbot.go:351-405 | in every run every row's fee is the price of its counts, and admission adds up exactly the fees of the user's open rows |
| `Admission.OwedAfterWrite` | api/inference/internal/ctrl/chatbot.go:351-405 | metering adds exactly the response's cost to what its user owes, and nothing to anyone else |
| `Admission.ExposureFalls` | api/inference/internal/ctrl/request.go:188-255 | no step but an admission raises what a user owes plus what is reserved |
| `Admission.ExposureIsBounded` | api/inference/internal/proxy/proxy.go:141-163 | with at most m requests in flight reserving at most r each, exposure exceeds the balance by at most (m - 1) * r, in every run |
| `Admission.OneAtATimeStaysCovered` | api/inference/internal/proxy/proxy.go:141-163 | a user who sends one request at a time never owes more than the balance |
| `Admission.ReservationCovers` | api/inference/const/const.go:33-34 | a response of up to a million output tokens, its prompt within the estimate, costs no more than was reserved |
| `Admission.OwedIsBounded` | api/inference/internal/ctrl/request.go:188-255 | with m requests in flight, prompts within their estimates of at most e and responses of up to a million tokens, a user never owes more than the balance and (m - 1) times e and the price of a million tokens |
| `Admission.BoundIsReached` | api/inference/internal/ctrl/request.go:188-221 | for every m and r there is a run that reaches the bound |
| `SettlementPlan.GroupRequestsByUser` | api/inference/internal/ctrl/settlement_tee.go:435-458 | one group per user with a parsing request, holding those requests in order and their exact total |
| `SettlementPlan.GroupsPartition` | api/inference/internal/ctrl/settlement_tee.go:435-458 | every parsing request is in its user's group as often as it was listed, and in no other |
| `SettlementPlan.GroupTotalsAddUp` | api/inference/internal/ctrl/settlement_tee.go:435-458 | the totals of all groups add up to the fees of all requests |
| `SettlementPlan.GetRequestsWithinBudget` | api/inference/internal/ctrl/settlement_tee.go:491-512 | returns the parsing requests before the first that the budget does not cover, and their exact sum |
| `SettlementPlan.AffordableIsCut` | api/inference/internal/ctrl/settlement_tee.go:491-512 | the budget covers every prefix up to the cut and not the next one, for fees of any sign |
| `SettlementPlan.CutIsLongestPrefix` | api/inference/internal/ctrl/settlement_tee.go:491-512 | a prefix is within the budget if and only if it is no longer than the cut |
| `SettlementPlan.NothingFromNothing` | api/inference/internal/ctrl/settlement_tee.go:360-363 | an empty or negative budget settles no fee |
| `SettlementPlan.GetUnsettledRequests` | api/inference/internal/ctrl/settlement_tee.go:514-528 | the requests whose hashes are not among the settled, in order |
| `SettlementPlan.UnsettledIsSuffix` | api/inference/internal/ctrl/settlement_tee.go:514-528 | after settling a prefix it is exactly the remaining suffix |
| `SettlementPlan.AdjustForPartialSettlement` | api/inference/internal/ctrl/settlement_tee.go:356-371 | nothing when no fee can be settled, else an item for the cut with exactly its fees |
| `SettlementPlan.PlanSendsLongestPrefix` | api/inference/internal/ctrl/settlement_tee.go:209-256 | what is sent for a user is a prefix with exactly its fees; for a user short of funds the longest one that fits |
| `SettlementPlan.FailedPreviewSendsNothing` | api/inference/internal/ctrl/settlement_tee.go:300-310 | a failing preview call leaves nothing of its batch to execute |
| `SettlementPlan.BatchPreviewSettlements` | api/inference/internal/ctrl/settlement_tee.go:273-353 | every position gets the result read from the call for its own batch of fifty: a failing call leaves the total unsettled, a named failure comes before a shortfall, a user not named settles in full |
| `SettlementPlan.PreviewIsPointwise` | api/inference/internal/ctrl/settlement_tee.go:273-353 | against a contract that judges items one by one, batching gives every position its own item's result |
| `SettlementRound.SentTogether` | api/inference/internal/ctrl/settlement_tee.go:550-574 | the items of one batch share one call, its failures and its income |
| `SettlementLaws.ExecutionIsPointwise` | api/inference/internal/ctrl/settlement_tee.go:550-574 | for any number of items, one counts as failed if and only if the call that carried it reports its user |
| `SettlementLaws.ClearedIsSettledFees` | api/inference/internal/ctrl/settlement_tee.go:374-400 | the totals of the items not reported as failed are the sum of the fees of what a round settles |
| `SettlementLaws.RoundBalances` | api/inference/internal/ctrl/settlement_tee.go:374-431 | fees before a round equal fees after it plus the totals reported with status 0, plus those not reported, plus what was given up |
| `SettlementLaws.RoundConserves` | api/inference/internal/ctrl/settlement_tee.go:374-431 | when every item is reported: fees before equal fees after plus the totals reported with status 0 plus what was given up |
| `SettlementLaws.RoundConservesIff` | api/inference/internal/contract/request.go:34-53 | that equation holds if and only if the contract is silent on no item that costs something |
| `SettlementLaws.UserLosesDeleted` | api/inference/internal/ctrl/settlement_tee.go:403-431 | the fees of a user's deleted requests: the item's total if it was sent and not reported as failed, all open requests without a signer, else zero |
| `SettlementLaws.UserPaysForDeleted` | api/inference/internal/contract/request.go:34-53 | a user whose item was sent pays for exactly what is deleted if and only if the contract reports on the item or it costs nothing |
| `SettlementLaws.SettledIffCarried` | api/inference/internal/contract/request.go:34-53 | a request is settled if and only if an item that carries it was sent and not reported as failed |
| `SettlementLaws.SettledIffPaidOrSilent` | api/inference/internal/contract/request.go:34-53 | equivalently, an item that carries it was reported with status 0 or not at all |
| `SettlementReplies.PlansWhatIsDue` | api/inference/internal/ctrl/settlement_tee.go:139-153 | each user the signing service serves has one item, with exactly the open requests that have output, a parsing fee and no wait |
| `SettlementReplies.GivenUpIffNoSigner` | api/inference/internal/ctrl/settlement_tee.go:412-424 | an open request is given up if and only if the preview call for its user names the user as one without a signer |
| `SettlementReplies.RefusedStays` | api/inference/internal/ctrl/settlement_tee.go:426-429 | refused for any other reason, a user keeps every row unchanged |
| `SettlementReplies.FateByPreview` | api/inference/internal/ctrl/settlement_tee.go:218-253 | by the reply to its preview call each planned request is sent or left: all, none, or those before the cut that the rest of the total pays for |
| `SettlementReplies.LeftWaits` | api/inference/internal/ctrl/settlement_tee.go:244-248 | what is left waits for an hour, its row otherwise unchanged |
| `SettlementReplies.SentIsGoneUnlessReported` | api/inference/internal/ctrl/settlement_tee.go:385-411 | what is sent is gone, unless the settlement call for its batch of fifty reports its user with a status other than 0; then its row is as it was |
| `SettlementFailures.KeptIsListedAgain` | api/inference/internal/ctrl/settlement_tee.go:164-169 | everything planned for settlement is still due after a failing round |
| `SettlementFailures.ChargesAndFailsIff` | api/inference/internal/ctrl/settlement_tee.go:550-574 | a call can fail after an earlier one was paid if and only if an item that costs something comes before the last batch |
| `SettlementFailures.ChargesAndKeepsIff` | api/inference/internal/ctrl/settlement_tee.go:164-169 | a planned round whose items all cost something can charge and keep every request if and only if it sends more than one batch |
| `SettlementLaws.OneFate` | api/inference/internal/ctrl/settlement_tee.go:403-431 | every row is exactly one of settled, given up, put off, untouched |
| `SettlementLaws.FateOnTable` | api/inference/internal/ctrl/settlement_tee.go:222-255 | settled and given up rows are gone, those put off wait an hour, the others are as they were |
| `SettlementLaws.UntouchedWhen` | api/inference/internal/ctrl/settlement_tee.go:222-255 | a due request stays eligible if and only if every outcome of its user has a passing status, cannot parse its fee, or was reported |
| `SettlementLaws.NextRoundLists` | api/inference/internal/db/request.go:18-49 | within the hour the next round lists a request again if and only if it stayed eligible |
| `SettlementLaws.NothingLeft` | api/inference/internal/ctrl/settlement_tee.go:139-153 | when nothing stays eligible and no wait runs out, the next round lists nothing |
| `SettlementLaws.GroupTotalIsDueShare` | api/inference/internal/db/request.go:155-182 | admission's aggregate equals settlement's group total plus the open rows that are not due |
| `SettlementEngine.Settler.CreateSettlements` | api/inference/internal/ctrl/settlement_tee.go:189-201 | exactly one item per user with due requests that the signing service serves |
| `SettlementEngine.Settler.CreateSettlementBatch` | api/inference/internal/ctrl/settlement_tee.go:185-270 | outcomes planned one by one from the reply to the preview call for their own batch; exactly the requests of users short of funds that are not settled, and those users, wait for 3600 seconds |
| `SettlementEngine.Settler.ExecuteBatches` | api/inference/internal/ctrl/settlement_tee.go:550-574 | the log of calls grows by exactly the items, each once and in order, fifty to a call but for the last, up to and including the batch whose call fails; failures and payments are those of the calls made |
| `SettlementEngine.Settler.ExecuteAndProcessResults` | api/inference/internal/ctrl/settlement_tee.go:374-400 | sends exactly the executable items and takes back exactly the outcomes of the users reported as failed |
| `SettlementEngine.Settler.ProcessOutcomes` | api/inference/internal/ctrl/settlement_tee.go:403-431 | the rows that no outcome dooms survive, in order; what is given up is counted |
| `SettlementEngine.Settler.SettleRound` | api/inference/internal/ctrl/settlement_tee.go:136-179 | the table, the calls, the payments and what is given up are exactly those of the round |
| `SettlementEngine.Settler.SettleRounds` | api/inference/internal/ctrl/settlement_tee.go:134-181 | passes follow one another until nothing is due, nothing can be sent, a call fails, or the tenth is over; the books hold exactly what they sent, were paid and gave up |
| `SettlementEngine.Settler.TidyUp` | api/inference/internal/ctrl/settlement_tee.go:119-132 | clears exactly the waits that are over and drops exactly the requests without output that are an hour old |
| `SettlementEngine.StaleCostNothing` | api/inference/internal/db/request.go:143-151 | dropped requests cost nothing while fees match counts and no input is owed |
| `SettlementEngine.UnansweredIsDroppedAfterAnHour` | api/inference/internal/proxy/proxy.go:141-148 | a request as it is let in is dropped by a settlement if and only if that starts at least 3600 seconds later |
| `SettlementEngine.Settler.SettleFeesWithTEE` | api/inference/internal/ctrl/settlement_tee.go:119-182 | a request is dropped before the first round if and only if it is an hour old without output, the others stay in order; passes as above; fees before plus what a failing last round was paid equal fees after plus all payments plus what was given up plus what the dropped requests cost; users wait as the rounds say |
| `SettlementEngine.SettlementConserves` | api/inference/internal/ctrl/settlement_tee.go:134-181 | any sequence of passes balances, when the contract reports each item of a call exactly once |
| `AccountMirror.ListUserAccount` | api/inference/internal/contract/user.go:19-45 | the paged listing ends, succeeds exactly when no visited page fails, and returns the whole list |
| `AccountMirror.UserDb.CreateUserAccounts` | api/inference/internal/db/user.go:19-25 | inserts all rows or none, and all exactly when no key repeats or is taken |
| `AccountMirror.UserDb.BatchUpdateUserAccount` | api/inference/internal/db/user.go:67-104 | succeeds if and only if no two accounts share a folded address, then mirrors them; otherwise nothing changes |
| `AccountMirror.UserDb.SyncUserAccounts` | api/inference/internal/ctrl/user.go:107-116 | listing and update together |
| `AccountMirror.AdditionsClash` | api/inference/internal/db/user.go:77-97 | the rows set aside for insertion can be inserted if and only if no key repeats |
| `AccountMirror.MirrorHoldsBalances` | api/inference/internal/ctrl/user.go:118-128 | the mirrored table has exactly the chain's folded addresses, their balances less pending refunds, the time of the check, and the old waits |
| `AccountMirror.MirrorIsIdempotent` | api/inference/internal/db/user.go:67-104 | mirroring the same accounts again changes nothing |
| `FileEncryption.IncrementNonce` | api/common/util/crypto.go:85-92 | the bytes in place become the successor of what they were |
| `FileEncryption.SuccessorAddsOne` | api/common/util/crypto.go:85-92 | the successor's big-endian value is one more, modulo 256 to the length |
| `FileEncryption.MostSignificantFirst` | api/common/util/crypto.go:85-92 | a first byte counts as often as there are values of the bytes behind it |
| `FileEncryption.NonceValue` | api/common/util/crypto.go:102-119 | the nonce of chunk k is the first nonce plus k, modulo the number of nonces |
| `FileEncryption.NoncesAreDistinct` | api/common/util/crypto.go:102-119 | the nonces of n chunks are pairwise distinct if and only if n is at most 256 to the length, as section 8 of NIST SP 800-38D asks |
| `FileEncryption.AesEncryptLargeFile` | api/common/util/crypto.go:57-122 | succeeds exactly when nothing fails to open, read or write; then 65 zero bytes, the first nonce, and the chunks sealed under successive nonces, with the tags concatenated in order |
| `FileEncryption.ChunkAt` | api/common/util/crypto.go:98-122 | each sealed chunk stands right after those before it |
| `FileEncryption.TagAt` | api/common/util/crypto.go:111-112 | the last sixteen bytes of a sealed chunk stand right after the tags of the chunks before it |
| `Transactions.Transact` | api/inference/contract/contract.go:81-134 | the price of every attempt is the escalated one; the loop ends at the first reply that is not congestion, or at once without a cap, and returns what that reply says |
| `Transactions.BumpProgress` | api/inference/contract/contract.go:115-121 | from within the cap a bump adds a tenth, rounded down, or ends at the cap; it never lowers the price, and stalls exactly at the cap or below ten |
| `Transactions.PriceIsCapped` | api/inference/contract/contract.go:115-121 | after the first bump the price is within the cap and never falls again |
| `Transactions.DoublesInTwenty` | api/inference/contract/contract.go:115-121 | twenty bumps double a price of ten or more, or reach the cap |
| `Transactions.CapIsReached` | api/inference/contract/contract.go:115-121 | the cap is reached within twenty bumps per doubling from start to cap |
| `Transactions.ReachesCapIff` | api/inference/contract/contract.go:115-121 | escalation ever reaches the cap if and only if it starts at ten or more, or at the cap |
| `Transactions.WaitForReceipt` | api/inference/contract/contract.go:162-190 | polls in order until an answer, and gives up after exactly two polls more than the configured rounds |
| `CleanupSchedule.SweptIffInReach` | api/fine-tuning/internal/services/settlement.go:308-341 | with a retention of a day or more the sweeps reach exactly the tasks created no earlier than the first window opens |
| `CleanupSchedule.SweptIsOldEnough` | api/fine-tuning/internal/services/settlement.go:324-335 | nothing is swept before it is as old as the retention |
| `CleanupSchedule.WindowEndsAreSwept` | api/fine-tuning/internal/db/service.go:22-26 | both ends of the window are swept |

## Left out

- Signatures, hashing, key recovery, TEE quotes and ECIES: opaque.  In particular nothing is said about the signature of an adjusted item, which the code keeps from the unadjusted one.
- The settlement nonce, derived from whole seconds, and its freshness across rounds.
- The contract's own handling of money: a contract that charges part of an item and reports it as partial is taken to charge nothing for it.
- What the signing of a chat response can fail with after the response has been charged.
- Losses of precision and overflow of 64-bit counters, and the sum the request listing computes beside its list.
- The retry branch of the transaction loop for a specified block error: it compares a lower-cased message with a capitalised constant and is never taken.
- HTTP proxying, sessions, decompression, JSON parsing, logging, metrics, Docker, storage, zip handling, training scripts and configuration: the response reaches the model as parsed lines, a training run as its result.
- The trigger of settlement by users at risk, and the query that lists them.
- When an acknowledgement is overdue, and what a settlement sends for acknowledged and overdue tasks: the reply to the poll and the result of the payment are parameters.
- Registration of the service with the contract beyond its occupied flag, and the comparison of service settings.
- Soft deletion: deleted rows are gone.
- Users without an account row: a settlement wait is recorded for them all the same.
- PipelineComponents.Broker.ProcessTask: runs alone, so what the goroutine of a timed-out job does afterwards is left to the steps of the state machine.
- SettlementEngine.Settler.ExecuteAndProcessResults: outcomes are values in a sequence that is reassigned, where the source overwrites fields of shared records.
- AccountMirror.UserDb.SyncUserAccounts: the chain's list does not change between two pages of one listing.
- CleanupSchedule.SweptIffInReach: sweeps are exactly twelve hours apart and days are those of universal time.
