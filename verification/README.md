# Verified model of the cleaning-task application

The application lets cleaning staff start, complete and flag tasks by scanning QR codes, online or
offline. Actions taken offline wait in a browser-side outbox and are replayed against the server later.
This project models that outbox, the server it talks to and the parts around them, and proves what the
two together guarantee. `dafny verify dfyconfig.toml` checks everything.

## How it is built

| files | what they hold |
|---|---|
| `Domain.dfy` | values shared by browser and server |
| `TasksService.dfy` | the task handlers as a class over the task table, and the function they compute |
| `Outbox.dfy` | the outbox, its replay and the server as one state machine over events |
| `OutboxInvariants.dfy`, `OutboxTheorems.dfy` | what every run of the machine keeps: history, mutual exclusion, retry accounting, draining |
| `ExactlyOnce.dfy` | at-least-once delivery to guarded handlers acts like exactly-once |
| `ArrivalOrder.dfy`, `Overtaking.dfy` | what holds in whatever order requests arrive, and why late duplicates need a guard |
| `OutboxStore.dfy`, `SyncService.dfy` | the IndexedDB store and `flushQueue` as classes, refining the machine |
| `FlushTheorems.dfy` | what whole calls of `flushQueue` achieve and miss |
| `Overlay.dfy`, `Screen.dfy`, `ScreenRuns.dfy` | the optimistic overlay, its fold, and what stays on the screen over whole runs |
| `ScansService.dfy`, `BatchRuns.dfy` | claims with expiry, the batch endpoint, and any interleaving of many requests |
| `ApiClient.dfy` | which requests are queued, and the endpoint parser |
| `Durations.dfy` | pairing check-outs with check-ins |
| `QrService.dfy` | signing input, clock normalisation, acceptance |
| `OrganizationsService.dfy` | buildings, floors and zones under foreign keys, cascades and unique codes |

The machine of `Outbox.dfy` takes one step per uninterrupted piece of work, so that its runs contain
every interleaving of user actions, triggers, replies, storage failures and late requests. What the
network, the storage and the clock do is part of each event. The audit trail inside the state records
what happened (enqueued, removed, first handler runs, 5xx answers); no code of the application reads it,
and only the environment looks up in it which request it delivers late.
The classes hold the mutable fields of the source, and their contracts equate each method with a
function or with a run of the machine; the theorems are about those. The audit trail is a field of the
flushing class, where it stands for what the environment remembers: a late request is looked up in it.

## Where the code falls short of its own account

The model keeps the code as it is; each of these is a proved statement.

- A record queued after a flush has read the queue is missed by it, although queuing fires the trigger: the
  trigger finds the flag set, and nothing fires again when the flush ends (`FullPassMissesArrivals`,
  `ArrivalStaysBehind`).
- The scan row is written after the task row and in no transaction with it. When that write fails, the
  answer is a 5xx, and whatever the staff do next, all retries are refused with a 400 and the scan is
  missing (`LostScanStaysLost`). Only a supervisor's status update that reopens the task lets a retry
  write it (`RetryRepairsIff`, `ReopeningRepairs`).
- When a start is lost to a gateway's 4xx and the completion behind it is refused, a late duplicate of the
  completion finishes the task as soon as a second start is accepted, although every button was offered
  (`LateCompletionOvertakes`). This is the only kind of late duplicate that matters (`LateChangesIff`), and
  without a lost record there is none (`OfferedDuplicatesAreQuiet`).
- When the transaction of a batch fails, its ids stay claimed and cannot be stored before a day has
  passed since the claim (`LostUntilExpiry`).
- A batch can be skipped at first and processed when it is sent again inside the window: an older claim
  that lapses in between is enough (`ResubmissionCanProcess`, `ResubmissionIff`).
- Flagging leaves DONE and MISSED (`LeavesFinishedIff`). Exactly the runs in which the owner flags a DONE
  row break the rule that completedAt marks the DONE rows (`CompletedExactlyWhenDoneIff`); up to such a flag
  durations are exact (`DurationsAreExact`), and after it a second completion can carry the duration of the
  first (`CompletionIsExactIff`, `StaleDurationAfterFlag`). A staff completion records no duration at all
  (`DurationOnlyFromStatusUpdate`).
- Two check-outs with no check-in between them both count the time since the same check-in
  (`SharedCheckInIff`).
- Seconds and milliseconds are told apart by size only: below ten million seconds they are confused, and
  from eleven-digit seconds on the service refuses its own payloads (`NormalisesIff`, `ElevenDigitsAreRefused`).
- A signature with as many UTF-16 units as a digest but non-ASCII text makes the comparison throw
  (`CompareThrowsIff`).
- Update bodies are not validated, and create bodies only in their form. Null for a required column, text
  with a NUL character, numbers beyond 32 bits, a missing new parent of a floor or zone, and the empty code
  of another zone pass the service's checks and fail in the database (`DatabaseErrorIff`). Of two concurrent
  zones with one new code the second fails there too instead of with a conflict (`LateConflictIsDatabaseError`).
- The header comments of `db.ts` and `apiClient.ts` name the store `pending_scans`; the code uses `outbox`
  and deletes a store of the older name.

## Model

| member | source | states |
|---|---|---|
| TaskServer.TasksService.StartTask | backend/src/tasks/tasks.service.ts:148-199 | 404 for a missing row; 400 and no change for a foreign task or a wrong status; else IN_PROGRESS with startedAt now, whatever it was, every other column kept, and the check-in stored or, if its write fails, a 500 |
| TaskServer.TasksService.CompleteTask | backend/src/tasks/tasks.service.ts:201-257 | the same for a completion: DONE with completedAt now, startedAt and duration kept, and the check-out |
| TaskServer.TasksService.FlagTask | backend/src/tasks/tasks.service.ts:259-288 | a flag changes the status only, in every status; 400 for a foreign task, and for a missing reason before anything else, as backend/src/tasks/tasks.controller.ts:62-64 does |
| TaskServer.TasksService.UpdateTaskStatus | backend/src/tasks/tasks.service.ts:329-370 | 404, 400 for each refusal, no change for the same status, and otherwise exactly the asked status with its stamp and, on completion, the duration in whole seconds |
| TaskServer.StartOutcome | backend/src/tasks/tasks.service.ts:157-196 | the handler function starts column by column, a new startedAt replacing an old one |
| TaskServer.CompleteOutcome | backend/src/tasks/tasks.service.ts:215-254 | the handler function completes column by column |
| TaskServer.FlagOutcome | backend/src/tasks/tasks.service.ts:268-276 | the handler function flags column by column |
| TaskServer.StatusOutcome | backend/src/tasks/tasks.service.ts:338-369 | the status rule in plain terms |
| TaskServer.ServeOutcome | backend/src/tasks/tasks.service.ts:148-370 | on the table: which code for a missing row or reason, and no other row is touched |
| TaskServer.TimestampsInOrder | backend/src/tasks/tasks.service.ts:148-370 | over every run of the four handlers from a fresh task and under a monotone clock: IN_PROGRESS has a start, DONE has a start and an end in order |
| TaskServer.FinishedIsFrozen | backend/src/tasks/tasks.service.ts:338-348 | in runs without flags no later call changes any field of a DONE or MISSED row |
| TaskServer.LeavesFinishedIff | backend/src/tasks/tasks.service.ts:272-276 | a handler changes a finished row exactly when its owner flags it with a reason |
| TaskServer.DoneOnlyFromInProgress | backend/src/tasks/tasks.service.ts:219-228 | DONE is entered only from IN_PROGRESS, whichever handler runs |
| TaskServer.CompletedExactlyWhenDone | backend/src/tasks/tasks.service.ts:338-369 | in runs without flags completedAt is set exactly on DONE rows and a recorded duration is the exact number of whole seconds |
| TaskServer.CompletedExactlyWhenDoneIff | backend/src/tasks/tasks.service.ts:272-369 | over every run from a fresh task: at every point completedAt is set exactly on DONE rows, if and only if no DONE row is flagged by its owner with a reason |
| TaskServer.DurationsAreExact | backend/src/tasks/tasks.service.ts:338-369 | under a monotone clock and as long as no DONE row is flagged, a recorded duration is on a DONE row and is the exact number of whole seconds; harmless flags are allowed |
| TaskServer.CompletionIsExactIff | backend/src/tasks/tasks.service.ts:223-229 | a staff completion leaves an exact row exactly if the row has no duration or happens to have the right one |
| TaskServer.DurationOnlyFromStatusUpdate | backend/src/tasks/tasks.service.ts:223-229 | in runs without flags a finished row has a duration exactly if the status update finished it |
| TaskServer.StaleDurationAfterFlag | backend/src/tasks/tasks.service.ts:272-276 | a concrete run with a flag after which the recorded duration is not that of the timestamps |
| OutboxStores.OutboxStore.AddPendingScan | frontend/src/services/db.ts:116-140 | a record goes to the end under a fresh larger key, or nothing changes if the write fails or the client event id is taken |
| OutboxStores.OutboxStore.GetPendingScans | frontend/src/services/db.ts:143-160 | returns all records in key order |
| OutboxStores.OutboxStore.RemovePendingScan | frontend/src/services/db.ts:162-176 | takes out exactly the records with the id, or nothing if the write fails |
| OutboxStores.OutboxStore.UpdatePendingScan | frontend/src/services/db.ts:179-211 | changes exactly the attempts of the named record; leaves a missing record missing |
| OutboxStores.OutboxStore.CountPendingScans | frontend/src/services/db.ts:213-223 | counts the records |
| OutboxStores.KeyOrderIncreasing | frontend/src/services/db.ts:150-155 | reading in key order is reading in insertion order: ids strictly increase and stay below the next key |
| OutboxInvariants.StepKeeps | frontend/src/services/syncService.ts:32-180 | every single step, of the application or its environment, keeps the invariant that `RunKeeps` states |
| OutboxInvariants.SettleFollowsVerdict | frontend/src/services/syncService.ts:75-167 | the exact effect of a reply on queue, bookkeeping and activation: what leaves and how, what is counted, whether the loop goes on, and that nothing else changes |
| Outbox.CallOfFields | frontend/src/services/syncService.ts:67-74 | a record's request asks for its action, as the session's user, with its qrCode or reason |
| Outbox.SendOutcome | frontend/src/services/syncService.ts:66-82 | one request: what reaches the server is the record's call in the session of the flush, and which reply comes back |
| OutboxInvariants.RunKeeps | frontend/src/services/syncService.ts:32-180 | every run keeps the history split, one activation at most, a snapshot that stays the front of the queue, attempts below the limit and honest reports |
| OutboxTheorems.HistoryIsRemovedThenPending | frontend/src/services/syncService.ts:51-168 | in every reachable state the enqueue history is the removed records followed by the pending ones, removals are in strictly increasing id order, and each record has exactly one fate |
| OutboxTheorems.PendingIdsAreDistinct | frontend/src/services/db.ts:83-85 | the pending records' client event ids are distinct in every reachable state |
| OutboxTheorems.AtMostOneFlush | frontend/src/services/syncService.ts:30-48 | over every interleaving of triggers: one activation at most, flag set exactly while there is one, removals only inside activations, announcement exactly after removals |
| OutboxTheorems.BeginsIff | frontend/src/services/syncService.ts:33-46 | an activation begins exactly at a trigger that is online, has a token and finds the flag clear |
| OutboxTheorems.IdleWithoutTrigger | frontend/src/services/syncService.ts:33-46 | over any run without such a trigger nothing is sent, removed or counted |
| OutboxTheorems.FlagIsReleased | frontend/src/services/syncService.ts:169-179 | each step of an activation, successful or not, ends it and releases the flag or brings its end closer |
| OutboxTheorems.FlagIsReleasedInTime | frontend/src/services/syncService.ts:46-179 | over any run an activation that has not ended has taken at most twice as many steps of its own as its snapshot has records |
| OutboxTheorems.AttemptsCountServerErrors | frontend/src/services/syncService.ts:133-157 | attempts equal the 5xx answers whose bookkeeping was written, stay below 8, and a record is dead-lettered exactly at the eighth |
| OutboxTheorems.AttemptsAreServerErrors | frontend/src/services/syncService.ts:133-157 | with successful storage writes attempts are the 5xx answers received and stay below 8, and a record is dead-lettered on exactly its eighth |
| OutboxTheorems.SettleChangesQueueIff | frontend/src/services/syncService.ts:75-167 | a reply changes the queue exactly when it is a 2xx, a 4xx other than 401 or a 5xx and the write succeeds; then only the head, and anything but a removal ends the cycle |
| OutboxTheorems.SettleOutcome | frontend/src/services/syncService.ts:75-167 | status by status, what a reply does to the queue: left alone, head out and under which label, or one more attempt |
| OutboxTheorems.CycleGoesOnIff | frontend/src/services/syncService.ts:61-167 | the cycle goes on exactly after a written removal on a 2xx or a 4xx other than 401, with more to send |
| OutboxTheorems.DrainBound | frontend/src/services/syncService.ts:28-157 | without new records and storage failures each such answer uses up at least one of the attempts left in the queue |
| OutboxTheorems.DrainedAfter | frontend/src/services/syncService.ts:28-157 | n records see at most 8n such answers and are gone when they have seen 8n |
| OutboxTheorems.StepHead | frontend/src/services/syncService.ts:88-157 | a conclusive answer removes the head or adds to its attempts, and no other step moves it back |
| OutboxTheorems.HeadBlocksAtMostEight | frontend/src/services/syncService.ts:88-157 | over any run with working storage, additions included, the head has left once its attempts and the conclusive answers since make 8 |
| SyncServices.SyncService.FlushQueue | frontend/src/services/syncService.ts:32-180 | without connectivity, token or a clear flag nothing happens at all; otherwise the imperative function, with its flag, snapshot, breaks and finally block, is exactly a run of the machine, whatever is queued, triggered, delivered late or written by others at any of its awaits, and whatever requests and storage do |
| SyncServices.LoadOutcome | frontend/src/services/syncService.ts:51-55 | a failed read or an empty queue ends the flush, and otherwise the loop starts on the whole queue |
| SyncServices.SyncService.Drain | frontend/src/services/syncService.ts:61-168 | the loop over the snapshot refines the machine up to its end or its first break |
| SyncServices.SyncService.SettleReply | frontend/src/services/syncService.ts:88-167 | the reply branches refine the machine's settling step, continuing exactly after a removal that is no dead letter |
| SyncServices.SyncService.SettleServerError | frontend/src/services/syncService.ts:133-157 | the 5xx branch refines counting the attempt or dead-lettering the record |
| SyncServices.SyncService.SendAndSettle | frontend/src/services/syncService.ts:61-168 | one round of the loop refines sending, everything that goes on until the reply is settled, and settling |
| SyncServices.SyncService.Fetch | frontend/src/services/syncService.ts:66-82 | one request: delivered or not, answered by handler, gateway or nobody |
| SyncServices.SyncService.Deliver | frontend/src/services/syncService.ts:67-74 | a delivered record reaches the handler of its action with its own arguments |
| SyncServices.SyncService.Await | frontend/src/services/syncService.ts:51-74 | everything outside that happens while the flush awaits is the same run of the machine: records queued (after an attempt or not), triggers, late requests, other writers |
| SyncServices.SyncService.Happen | frontend/src/services/syncService.ts:33-33 | one such event; a trigger finds the flag set and returns |
| FlushTheorems.FullPassMissesArrivals | frontend/src/services/syncService.ts:33-179 | a flush whose replies all remove takes out exactly what was queued before it read the queue, and ends idle with an empty queue if and only if nothing was queued meanwhile |
| FlushTheorems.ArrivalStaysBehind | frontend/src/services/syncService.ts:203-207 | a concrete run in which a completion queued behind a start in flight stays behind an idle, finished flush |
| FlushTheorems.CycleUsesAttempt | frontend/src/services/syncService.ts:61-157 | the attempts left strictly decrease over a whole flush whose first answer is conclusive |
| FlushTheorems.DrainsInEightCyclesEach | frontend/src/services/syncService.ts:28-157 | n records are gone after at most 8n such flushes without new records |
| FlushTheorems.HeadIsGoneAfterEightFlushes | frontend/src/services/syncService.ts:117-157 | a failing head blocks its successors for at most 8 productive flushes, less the attempts it has used up, however many records are queued before and during them |
| ExactlyOnce.AtLeastOnceActsLikeOnce | frontend/src/services/syncService.ts:61-168 | the main theorem: over any admissible run the server row is the fold of the handlers over a subsequence of the enqueued records, in order, each at most once, drawn from the removed ones and at most the oldest pending one, covering all that a handler's answer removed |
| ExactlyOnce.DrainedMeansExactlyOnce | frontend/src/services/syncService.ts:61-168 | once nothing is pending and nothing was lost, the sequence of handler runs is the sequence of enqueued records |
| ArrivalOrder.EachActionChangesOnce | backend/src/tasks/tasks.service.ts:148-288 | with no assumption on the order: over any run of staff requests, late, dropped, dead-lettered and direct online ones included, the row is the fold of at most one start, one completion and one flag, in that order, each an action that was taken |
| ArrivalOrder.StepReaches | backend/src/tasks/tasks.service.ts:148-288 | every step changes the row by the one handler run it makes for the owner, or not at all |
| ExactlyOnce.AllCountedMeansExactlyOnce | frontend/src/services/syncService.ts:61-168 | if every enqueued action has run, the runs are exactly the enqueued actions, once each and in order, whether or not their records are still pending |
| ExactlyOnce.RepeatIsQuiet | backend/src/tasks/tasks.service.ts:148-288 | running a record's handler again, in any session and at any time, changes nothing |
| ExactlyOnce.ProgressIsFinal | backend/src/tasks/tasks.service.ts:161-276 | in any run of staff calls a start leaves the startable statuses for good and a flag is final |
| ExactlyOnce.LateChangesIff | backend/src/tasks/tasks.service.ts:219-228 | a late duplicate changes the task exactly when it is a completion that finds the task running |
| ArrivalOrder.OwnerRunChangesIff | backend/src/tasks/tasks.service.ts:161-276 | when the owner's run of a record, first or repeated, early or overtaking, changes the row, and to which status |
| Overtaking.LateCompletionOvertakes | backend/src/tasks/tasks.service.ts:219-228 | a concrete run of offered buttons in which, after a lost start, such a duplicate finishes the task, and the row is not the fold of the first runs |
| Overtaking.InOrderOnlyStarts | backend/src/tasks/tasks.service.ts:219-228 | while the fold of the first runs, in order, only starts it |
| ExactlyOnce.LostScanStaysLost | backend/src/tasks/tasks.service.ts:165-196 | a failed scan write after the task update is a 5xx, and after any further staff calls every retry is refused and changes nothing |
| ExactlyOnce.RetryRepairsIff | backend/src/tasks/tasks.service.ts:161-196 | a retry writes the missing scan exactly if the task has been reopened, and is refused otherwise |
| ExactlyOnce.ReopeningRepairs | backend/src/tasks/tasks.service.ts:338-369 | a supervisor's update to PENDING reopens a start, and its retry writes the scan |
| ExactlyOnce.StepOnce | frontend/src/services/syncService.ts:61-168 | the inductive step: every admissible event keeps the ledger, the order, the coverage and the honesty of answers |
| ExactlyOnce.RunKeepsOnce | frontend/src/services/syncService.ts:61-168 | hence every admissible run keeps them |
| Overlay.ApplyPendingOverlay | frontend/src/components/Tasks/StaffDailyTasks.tsx:96-130 | the grouping map and loops compute the overlay defined by painting the whole queue over each task, in list order |
| Overlay.GroupByTask | frontend/src/components/Tasks/StaffDailyTasks.tsx:99-104 | the map holds exactly the tasks with records, each with its own in queue order |
| Overlay.PaintItems | frontend/src/components/Tasks/StaffDailyTasks.tsx:110-128 | the inner loop over a task's own records is their fold |
| Overlay.PaintOnlyMine | frontend/src/components/Tasks/StaffDailyTasks.tsx:99-108 | grouping is harmless: a task's own records determine its overlay |
| Overlay.OverlayAppend | frontend/src/components/Tasks/StaffDailyTasks.tsx:96-130 | overlaying two queues in turn is overlaying their concatenation |
| Overlay.OverlayFields | frontend/src/components/Tasks/StaffDailyTasks.tsx:110-128 | field by field: status of the last own record, pendingSync exactly on tasks with records, known timestamps kept and otherwise the first queued one, all else untouched |
| Overlay.FirstScanIff | frontend/src/components/Tasks/StaffDailyTasks.tsx:113-123 | the timestamp that the overlay takes is that of the first record of the action |
| Screen.ServerStepIsTheHandler | backend/src/tasks/tasks.service.ts:161-276 | the status fold is the handlers' effect on the status |
| Screen.ButtonsMatchHandlers | frontend/src/components/Tasks/StaffDailyTasks.tsx:732-772 | the list offers exactly the actions that the server would carry out, except flagging a finished task |
| Screen.InvisibleIff | frontend/src/components/Tasks/StaffDailyTasks.tsx:96-130 | for every queue: replaying any prefix leaves the shown status alone if and only if the last action lands on the server |
| Screen.LegalIsInvisible | frontend/src/components/Tasks/StaffDailyTasks.tsx:732-772 | a queue of enabled buttons is replayed invisibly, at every split |
| Screen.LegalFold | frontend/src/components/Tasks/StaffDailyTasks.tsx:732-772 | a fully replayed legal queue leaves the server at the status that was shown |
| Screen.LegalIsShort | frontend/src/components/Tasks/StaffDailyTasks.tsx:732-772 | the buttons allow at most a start and one more action per task |
| Screen.LossShowsIff | frontend/src/services/syncService.ts:117-143 | when records are dropped, exactly which losses change the final status |
| ScreenRuns.ScreenIsStable | frontend/src/components/Tasks/StaffDailyTasks.tsx:96-130 | over whole runs with sends, retries, duplicates and removals the screen shows the last queued action, or the original status |
| ScreenRuns.ScreenShowsHistory | frontend/src/components/Tasks/StaffDailyTasks.tsx:96-130 | in every state with a legal history and no loss the overlay of what is pending on the current row shows the whole history |
| ScreenRuns.SyncingIsInvisible | frontend/src/components/Tasks/StaffDailyTasks.tsx:96-130 | no step that queues nothing changes what the screen shows |
| ScreenRuns.DrainedScreenIsServer | frontend/src/components/Tasks/StaffDailyTasks.tsx:96-130 | after a full drain the plain server row has the shown status |
| ScreenRuns.OfferedDuplicatesAreQuiet | frontend/src/components/Tasks/StaffDailyTasks.tsx:732-772 | if no record was lost and all buttons were offered, a completion that has run has finished the task, so that no late duplicate changes it |
| Scans.RedisService.SetNx | backend/src/common/redis/redis.service.ts:46-53 | succeeds exactly when no live entry has the key, and then alone changes the store |
| Scans.ClaimLastsOneWindow | backend/src/common/redis/redis.service.ts:36-53 | a claim is alive exactly until 86400 seconds after it was made, and touches no other id |
| Scans.ClaimIsKept | backend/src/scans/scans.service.ts:18-20 | a claim is kept under the prefixed id, with its mark and its expiry after 86400 seconds |
| Scans.CacheKeyInjective | backend/src/scans/scans.service.ts:18 | different ids have different keys |
| Scans.ScansService.ProcessBatchScans | backend/src/scans/scans.service.ts:13-77 | the claim loop and transaction compute the split, the counts, the skipped ids and the new table, also when the transaction fails |
| Scans.SplitIsByWinning | backend/src/scans/scans.service.ts:14-28 | the loop splits the batch in order into the winning scans and the ids of the others, and the two counts add up |
| Scans.PickedInOrder | backend/src/scans/scans.service.ts:17-28 | batch order: each winner stands behind the winners before it, each skipped id behind the skipped ones |
| Scans.InsertableIff | backend/prisma/schema.prisma:139 | a batch goes in exactly if the table then still has one row per idempotency key |
| Scans.WinnersAreFirstOccurrences | backend/src/scans/scans.service.ts:17-28 | if no claim expires meanwhile, the winners are the first occurrences of unclaimed ids |
| Scans.LiveAfterIff | backend/src/scans/scans.service.ts:20-28 | after the loop exactly the ids that were alive or won are claimed |
| Scans.NothingProcessedIff | backend/src/scans/scans.service.ts:17-28 | a batch is skipped as a whole exactly when each id is alive as its scan arrives |
| Scans.ResubmissionIff | backend/src/scans/scans.service.ts:17-28 | for every batch and store: a resubmission inside the window processes nothing exactly when each id was won by the first submission or holds an older claim that is still alive |
| Scans.ResubmissionProcessesNothing | backend/src/scans/scans.service.ts:20-28 | resubmitting any batch inside the window processes nothing, unless a claim alive at the first submission lapses before the second |
| Scans.ResubmissionCanProcess | backend/src/scans/scans.service.ts:17-28 | a concrete scan that is skipped in the last instant of an older claim and processed when sent again an instant later |
| Scans.ProcessedAgainIff | backend/src/scans/scans.service.ts:17-28 | a scan that wins is processed again exactly when it comes back at least 86400 seconds later, and skipped before |
| BatchRuns.ClaimsAreAWindowApart | backend/src/common/redis/redis.service.ts:46-53 | over any interleaving and all time two claims of one id are at least 86400 seconds apart |
| BatchRuns.StoredAsOftenAsCommitted | backend/src/scans/scans.service.ts:17-68 | over all time and any interleaving an id is stored exactly as often as a request that claimed it committed |
| BatchRuns.StoredOnceIff | backend/src/scans/scans.service.ts:17-68 | in any window, wherever it starts, an id whose older claims are settled is claimed at most once more, and stored exactly once more precisely when that claim's request commits |
| BatchRuns.EveryReceivedIdOnce | backend/src/scans/scans.service.ts:17-68 | when all requests have finished and none failed, every received id is stored once per claim: at least once, and exactly once while the window of its first claim lasts |
| BatchRuns.LostUntilExpiry | backend/src/scans/scans.service.ts:30-68 | from any reachable state until a window after a claim, an id whose claiming requests are closed is neither claimed nor stored, and not stored at all if they failed |
| BatchRuns.AloneIsTheLoop | backend/src/scans/scans.service.ts:17-28 | an undisturbed request of the machine does what the endpoint's loop does |
| BatchRuns.AloneIsTheEndpoint | backend/src/scans/scans.service.ts:17-68 | an undisturbed request with its commit ends as the endpoint does, in rows, keys and outcome |
| ApiClients.ApiClient.ApiRequest | frontend/src/services/apiClient.ts:105-241 | a record is added exactly for an unanswered mutation of a task endpoint with a new event id and a working store; field by field which record; what the caller is told otherwise |
| ApiClients.ApiClient.QueueRequest | frontend/src/services/apiClient.ts:77-103 | one record at the end with the decoded id, the action, the payload's qrCode and reason, the event id, the time and no attempts, or none; and exactly when |
| ApiClients.ReplayCarriesPayload | frontend/src/services/apiClient.ts:91-102 | the replay of a queued record asks for its action with the payload's qrCode or reason |
| ApiClients.MetadataIff | frontend/src/services/apiClient.ts:54-72 | id and action are found exactly for a task endpoint whose id segment decodes to that id |
| ApiClients.ParsePrinted | frontend/src/services/apiClient.ts:60-71 | parsing a task endpoint with any prefix and optional trailing slash returns its id and action |
| ApiClients.MatchIff | frontend/src/services/apiClient.ts:60-71 | the parser accepts exactly the strings of that form |
| ApiClients.PrintParsed | frontend/src/services/apiClient.ts:60-71 | what it accepts prints back |
| ApiClients.DecompositionUnique | frontend/src/services/apiClient.ts:60-71 | the decomposition is unique in all its parts |
| ApiClients.ListEndpointsQueueTheirTask | frontend/src/components/Tasks/StaffDailyTasks.tsx:272 | the endpoints that the list builds for start, complete and flag are queued under their task and action |
| Durations.LastCheckInIff | backend/src/scans/scans.service.ts:116-127 | the query finds the user's latest strictly earlier check-in, and nothing exactly when there is none |
| Durations.DurationIff | backend/src/scans/scans.service.ts:113-133 | a duration is reported exactly for check-outs with an earlier check-in, as the nearest minute, halves up |
| Durations.RoundsToNearestMinute | backend/src/scans/scans.service.ts:131 | rounding moves a duration by at most half a minute, and half a minute only up |
| Durations.SharedCheckInIff | backend/src/scans/scans.service.ts:116-127 | two check-outs are paired with one check-in exactly when there is one before the first and none in between |
| Durations.PairsAreAdjacent | backend/src/scans/scans.service.ts:116-127 | in an alternating history each check-out is paired with the check-in just before it |
| Durations.ReportedIsClose | backend/src/scans/scans.service.ts:129-132 | over n visits the reported minutes differ from the exact time by at most n/2 minutes |
| Qr.ValueOfDecimal | backend/src/qr/qr.service.ts:77 | the decimal printer is injective: reading undoes printing |
| Qr.DecimalIsCanonical | backend/src/qr/qr.service.ts:77 | the printed timestamp has digits only and no leading zero |
| Qr.SigningInputExample | backend/src/qr/qr.service.ts:77 | two signing inputs, written out |
| Qr.SigningInputInjective | backend/src/qr/qr.service.ts:76-82 | the signing input determines location and timestamp, even for locations with colons |
| Qr.NormalisesIff | backend/src/qr/qr.service.ts:42-45 | exactly which seconds are the same timestamp as their milliseconds |
| Qr.UnitsAgree | backend/src/qr/qr.service.ts:39-71 | from ten million seconds on the verdict does not depend on the unit |
| Qr.ElevenDigitsAreRefused | backend/src/qr/qr.service.ts:25-49 | within the tolerance a generated payload is accepted exactly up to the last ten-digit second |
| Qr.GeneratedIsAcceptedIff | backend/src/qr/qr.service.ts:25-71 | up to there, exactly while the clock is within 30 seconds of its timestamp |
| Qr.GeneratedNamesLocationAndSecond | backend/src/qr/qr.service.ts:25-34 | a payload names the asked location and the current second, signs both, and is accepted at once |
| Qr.GeneratedIsForItsLocationOnly | backend/src/qr/qr.service.ts:25-71 | its timestamp and signature are accepted for that location and for no other |
| Qr.VerdictIff | backend/src/qr/qr.service.ts:39-71 | which verdict and why: age beyond 30 seconds first, with the age, then the signature of the named location and second |
| Qr.SignatureBindsLocationAndSecond | backend/src/qr/qr.service.ts:39-71 | a minted signature is accepted exactly with its own location and second, within 30 seconds |
| Qr.CompareThrowsIff | backend/src/qr/qr.service.ts:87-92 | the comparison throws exactly for non-ASCII candidates of the digest's length, and otherwise decides equality |
| Organizations.OrganizationsService.CreateZone | backend/src/organizations/organizations.service.ts:126-148 | a missing floor, then a taken code, then the insert; keeps keys valid and codes unique |
| Organizations.OrganizationsService.UpdateZone | backend/src/organizations/organizations.service.ts:179-196 | a missing zone, a given non-empty code that another zone has, or the write of the given columns; keeps keys valid and codes unique |
| Organizations.OrganizationsService.DeleteBuilding | backend/src/organizations/organizations.service.ts:63-66 | succeeds exactly when the building exists, then removes exactly it and its floors and detaches exactly their zones; otherwise changes nothing; keeps keys valid |
| Organizations.OrganizationsService.DeleteFloor | backend/src/organizations/organizations.service.ts:117-120 | succeeds exactly when the floor exists, then removes exactly it and detaches exactly its zones; otherwise changes nothing; keeps keys valid |
| Organizations.OrganizationsService.DeleteZone | backend/src/organizations/organizations.service.ts:198-201 | succeeds exactly when the zone exists, then removes exactly it and its tasks and detaches exactly their scans; otherwise changes nothing; keeps keys valid |
| Organizations.DoneIff | backend/src/organizations/organizations.service.ts:15-201 | for all nine operations: success exactly when the service's lookups pass, every value fits its column, and no constraint breaks that the lookups do not cover |
| Organizations.CreatesDoneIff | backend/src/organizations/organizations.service.ts:15-148 | the same in plain terms for the three creates: parent, code, text and 32-bit bounds |
| Organizations.UpdatesDoneIff | backend/src/organizations/organizations.service.ts:55-196 | and for the three updates, nulls included |
| Organizations.NotFoundIff | backend/src/organizations/organizations.service.ts:48-182 | not found exactly for a missing row, or a missing parent of a new one |
| Organizations.ConflictIff | backend/src/organizations/organizations.service.ts:131-190 | conflict exactly for a code that a zone has, on an update another zone and only if it is not empty |
| Organizations.WritesOneRow | backend/src/organizations/organizations.service.ts:15-196 | a successful create or update writes the one row it names, with the given columns and the kept ones, and touches no other row or table |
| Organizations.HandleIsOneStatement | backend/src/organizations/organizations.service.ts:15-201 | a handler leaves the tables alone or executes one accepted statement, and answers accordingly |
| Organizations.OpsKeepIntegrity | backend/src/organizations/organizations.service.ts:15-201 | every run of the service's handlers keeps foreign keys valid and zone codes unique |
| Organizations.InterleavingKeepsIntegrity | backend/src/organizations/organizations.service.ts:15-201 | so does every run in which handlers interleave between their lookups and their writes, among themselves and with other services |
| Organizations.LateConflictIsDatabaseError | backend/src/organizations/organizations.service.ts:131-147 | when two creates of one new code look it up before either writes, the second is turned down by the database and not by the service |
| Organizations.ExecuteKeeps | backend/prisma/schema.prisma:82-135 | every accepted statement, cascading deletes included, keeps foreign keys valid and codes unique |
| Organizations.RunKeepsIntegrity | backend/prisma/schema.prisma:82-163 | so does every run of statements, whoever issues them |
| Organizations.DeleteBuildingRemovesOnlyFloors | backend/prisma/schema.prisma:90-106 | exactly the building's floors go, exactly their zones are detached, tasks and scans stay |
| Organizations.DeleteFloorRemovesOnlyIt | backend/prisma/schema.prisma:106 | exactly the floor goes, and exactly its zones are detached |
| Organizations.DeleteZoneRemovesOnlyTasks | backend/prisma/schema.prisma:126-156 | exactly the zone's tasks go, exactly their scans are detached, every scan stays |
| Organizations.CascadeIsStepwise | backend/prisma/schema.prisma:90-106 | deleting a floor by hand before its building gives the same tables as the cascade |
| Organizations.OnlyDeletesRemove | backend/prisma/schema.prisma:90-156 | over any run no scan disappears, and any other row only by a delete that names it or its kind of parent |
| Organizations.DatabaseErrorIff | backend/src/organizations/organizations.service.ts:15-196 | exactly when the lookups pass and the database still rejects: null in a required column, NUL in text, a number beyond 32 bits, a missing new parent in an update, another zone's empty code |

## Left out

- ExactlyOnce.AtLeastOnceActsLikeOnce: assumes that the queue is the observed task's only writer, that a late first run keeps its place, and that a completion is not duplicated while the task runs; the last is necessary after a loss (`LateCompletionOvertakes`) and free without one (`OfferedDuplicatesAreQuiet`). What holds without the order, and with direct online requests beside a non-empty queue, is `EachActionChangesOnce`. Supervisor updates of the observed task are outside both.
- ScreenRuns.ScreenIsStable: claims the status only, because the overlay uses the client's scan time and the server its own clock; it assumes that buttons were pressed as the combined screen offered them. The screen's local list can lag behind the store (`applyOptimisticUpdate` is never called), and a stale button is then covered by `InvisibleIff` alone.
- Organizations.OrganizationsService.UpdateZone: takes the lookup by code to be unique, which every reachable state guarantees.
- TaskServer.TasksService.StartTask: is one atomic step, like every handler here, apart from its second write; the source reads and writes without a lock.
- ApiClients.ApiClient.ApiRequest: takes `decodeURIComponent` as a parameter, and does not model a response whose body cannot be read, headers or the stored url and method.
- Qr.SigningInputInjective: is about natural-number timestamps; fractional, negative and very large ones, printed in other notations, and lone surrogates are not modelled.
- Qr.SignatureBindsLocationAndSecond: treats HMAC-SHA256 as an uninterpreted function that is assumed collision-free there.
- Durations.ReportedIsClose: computes over real numbers instead of floating point; paging and joined columns of the listing are not modelled.
- `updateTask` (backend/src/tasks/tasks.service.ts:290-327) writes any status without a check and would void the status invariants, so it is in no modelled run.
- Statistics, listing and formatting of tasks; nightly task generation beyond the fresh row it creates.
- Several tabs: the flag is one per tab. The IndexedDB upgrade, and a request reported successful whose transaction aborts afterwards.
- Deleting users, which cascades to scans and detaches tasks, and the rows attached to a scan.
- Update bodies with undeclared properties or values of a wrong type, malformed ids and lone surrogates in text, which the database driver rejects or replaces. A code with a NUL character fails in the service's lookup already; the model lets it fail in the write, with the same answer.
- BatchRuns.EveryReceivedIdOnce: compares ids as strings, as the claim keys do, and so takes every id to be spelled in one way. The columns are UUIDs and the request accepts either letter case: two spellings of one id take two claims and store it twice.
- Login, roles and route guards: their answers are the gateway answers of the outbox machine.
- Dashboard, exports, retention, audit log, user interface and real-time notifications: little state, or input and output only.
