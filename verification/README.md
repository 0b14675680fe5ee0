# GDOM migration core in Dafny

GDOM moves the ownership of Google Drive items from one account to another as a job that survives interruption. This
project models the parts of its Rust backend where a crash, a race or a small arithmetic slip would cost data, and
proves what they keep.

- **Scan** (`ScanModel`, `ScanInvariant`, `ScanMeasure`, `ScanSeed`, `ScanOrder`, `ScanHistories`, `ScanStops`,
  `Scanner`). A breadth-first walk over paged folder listings in concurrent waves, committed in batches of at most a
  hundred rows with checkpoints. Drive is any finite listing: cycles, several parents and repeated ids included. The pages
  of a wave arrive in any order. Every commit may fail before or after it took effect, which is also what a crash leaves
  behind. `ScanHistories` states the runs as sequences of events on values; the worker of `Scanner` is proved to follow it.
- **Transfer** (`DriveModel`, `Backoff`, `TransferModel`, `Transfer`, `TransferJobs`, `Completion`). Pending owner,
  accept, verify, each step saved before the next call; canary, bulk and automatic runs; reconciliation after an
  interruption. A run is in one of three modes: Drive answers anything at all; Drive tells the truth, but calls and saves
  may fail before or after taking effect; or nothing fails. Safety is proved for all three, convergence for the last,
  starting from whatever the second can leave behind.
- **Queue** (`Queue`). Optimistic changes of the job queue, computed from snapshots and events of any age.
- **Leases** (`Leases`). The transfer slot in memory and the lease on disk, scan slots and the update gate, as steps of
  interleaved tasks.
- **A job's life** (`JobSteps`, `PhaseRecovery`, `PhaseRuns`, `JobRules`). One job after its scan as a state machine over
  its status, event log and item table: workers and what they may save, requests, crashes, startups, the queue. Whether a
  stopped job can be resumed, and in which phase; how workers end and what cancelling leaves.
- **Tokens** (`Tokens`). The token cache, one lock for each account, refreshes and marking, as steps of interleaved tasks.
- **Exact computations** (`CivilDate`, `DecimalText`, `Timestamps`, `Splitting`, `Csv`, `Reports`, `FinalReport`). Day
  numbers and dates, timestamps with their order and a reader, and the exports with readers for both of their forms.

`Items`, `Classifier` and `Jobs` hold the item states with their transition table, the classification of a Drive child,
and the job statuses with the transitions that workers and the queue use. The table and the job transitions are those of
the domain crate under `src-tauri/crates/gdom-migration/src` (`item.rs:99-201`, `job/transfer.rs:4-318`,
`job/status.rs:51-74`).

Objects that the source updates step by step are classes here (`ScanStore`, `ScanRun`, `TransferRun`, `QueueStore`);
protocols between tasks are state machines on values, so that every interleaving is a sequence of steps.

## What the code does not keep

Nine claims one might make of the code are false as they stand. Each is stated with the exact condition under which it
holds.

- Chunked seeding of more than a hundred distinct roots loses roots when it stops between two chunks
  (`ScanSeed.SeedingIsSafeIffOneChunk`).
- A scan stopped between two commits of one page can leave a folder deeper than what is in it, so that the transfer takes
  the folder first. The order survives every stop exactly when pages fit one batch of a hundred entries
  (`ScanStops.OrderIsSafeIffPagesFitOneBatch`); the code asks for pages of a thousand
  (`src-tauri/src/infrastructure/google_drive/mod.rs:27`). As long as every commit of a page succeeds, its size does not
  matter (`Scanner.ScanRun.WholePageHistory`).
- A pause or cancel looks for a transfer in flight and releases the leases later; a worker that starts in between loses
  them. A run is safe throughout exactly when that does not happen (`Leases.EveryRunIsSafe`).
- A job queued after a rate limit, a quota wait or a lost sign-in does not get that status back when it is taken out of
  the queue (`Queue.QueueAndRemove`).
- A removal from the queue restores the status that the job's events told when they were read, before the commit
  (`Queue.QueueStore.RemoveQueuedJob`). That is right for as long as the job stays queued (`Queue.QueueAndRemove`), but
  not for one taken out, transferred and queued again in between (`Queue.StaleEventsRestoreReview`).
- Pausing a paused job again, or a resume that a refused token stops, hides the phase it was in from the event log; it is
  then recovered exactly when the item table tells it (`PhaseRecovery.PhaseIsRecovered`), and there are runs in which it
  does not (`PhaseRuns.BulkResumesAsCanary`, `PhaseRuns.CanaryResumesAsBulk`).
- A canary that dies before it has saved the first item of its batch leaves a paused job that no resume goes on with, as
  it looks like a paused scan (`PhaseRuns.DeadCanaryStaysPaused`); scanning again or queueing leads on
  (`PhaseRuns.DeadCanaryStartsAgain`). `PhaseRecovery.ResumeContinuesThePhase` has the exact condition of the refusal.
- A request for a token that fails does not always give the account its status back: where no credential is found the
  account is left as refreshing. After any other failure it has its old status, or has to sign in again
  (`Tokens.RefusalIsRecorded`).
- A job can complete, even without errors, with items left unfinished: a request to retry what failed looks at no worker
  and resets items that the running worker has already dealt with (`PhaseRuns.BulkCompletesUnfinished`,
  `PhaseRuns.CanaryCompletesUnfinished`). When a run comes to its end, exactly the items so reset are not at rest
  (`TransferJobs.ExecuteBulk`, `TransferJobs.ExecuteAutoTransfer`), and the report counts them
  (`Completion.BulkThenReport`).

## Hypotheses

- Drive stands still during a scan, lists a file the same way wherever it lists it, and never lists a folder with no page
  at all.
- In the truthful modes of a transfer nobody else changes the files: the target has at most one permission on a file,
  permission ids are distinct, the parents stay, and the target's permission has the owner role only once it owns the
  file. What a pending-owner request and an acceptance do is part of the model. In the other mode no such thing is assumed.
- A new scan run may list the checkpoints in any order, as the query names none.
- A crash between a call and the following save is a save that fails without effect, after the call took effect.
- Only one worker saves rows of a job at a time (see the leases for when that holds), and while it runs nothing else
  does but retry requests. These fall between two items. One in the middle of an item changes no more: it can reset only
  failed rows, and the worker's own is one only before its first save or after its last.
- The list queries never return an item in state discovered, which no scan writes.
- A job's events are read in the order they were appended. Timestamps are in that order up to the year 9999
  (`Timestamps.TextOrderIsTimeOrder`) when they differ.
- One process. In the life of a single job, unlike in the queue, reading a queued job's events and committing its
  removal is one step, a write that starts or ends a worker does not fail, and a scanned job has no scan checkpoints.

## Model

| member | source | states |
|---|---|---|
| `Classifier.EligibleExactlyWhenTransferable` | src-tauri/src/application/item_classifier.rs:17-59 | An item starts as eligible exactly when it is live, in the source's own Drive, owned by the source and not by the target, and no shortcut; everything else starts in a skipped state; the scan descends exactly into eligible folders |
| `Classifier.Classify` | src-tauri/src/application/item_classifier.rs:17-59 | From the child alone and in the order of the tests: trashed exactly if it is in the trash, shared drive exactly if it is live with a non-empty drive id, then owned by the target, not owned by the source, and a shortcut; the scan enters exactly the live folders of the source's own Drive |
| `Classifier.OneStateToStart` | src-tauri/src/application/item_classifier.rs:17-59 | Of all item states a child starts in exactly one by these conditions |
| `Scanner.ScanStore.InsertScanBatch` | src-tauri/src/infrastructure/item_store.rs:24-95 | A batch inserts only ids that have no row, upserts checkpoints, then deletes checkpoints: the tables become the batch applied to the old ones |
| `Scanner.ScanStore.CommitScanBatch` | src-tauri/src/infrastructure/item_store.rs:98-124 | A batch of more than a hundred items is refused and changes nothing; an error leaves either the old tables or the whole batch; without faults every other batch commits |
| `Scanner.ScanStore.CreateSeededScan` | src-tauri/src/infrastructure/job_store.rs:111-152 | The roots of a new job are written in one transaction whatever their number |
| `Scanner.ScanStore.ListScanCheckpoints` | src-tauri/src/infrastructure/item_store.rs:140-163 | Every checkpoint is listed once, as the work it stands for |
| `Scanner.ScanRun.CollectRoots` | src-tauri/src/application/scanner.rs:221-315 | Repeated roots are looked up once; the rows and folder checkpoints are those of the distinct roots in order, and one failed lookup writes nothing |
| `Scanner.ScanRun.PersistRoots` | src-tauri/src/application/scanner.rs:196-219 | Wherever the chunked commit of the roots stops, the tables are the seeding of a prefix of the roots that ends at a chunk boundary |
| `Scanner.ScanRun.Discover` | src-tauri/src/application/scanner.rs:323-363 | The children of a page met for the first time, in order and once each, become the planned rows and folder checkpoints, and all of the page's ids become visited |
| `Scanner.ScanRun.CommitRows` | src-tauri/src/application/scanner.rs:365-397 | However the commits of a page stop, the tables hold a prefix of its rows with the checkpoints of at least that prefix; no batch is too large and no checkpoint is left over |
| `Scanner.ScanRun.ApplyPage` | src-tauri/src/application/scanner.rs:317-443 | The listed folder's checkpoint advances only after all rows of its page are in; every stop before that leaves a prefix of the rows; the queue grows by the next page and the new folders |
| `ScanInvariant.PlanPage` | src-tauri/src/application/scanner.rs:328-363 | A page never needs more folder checkpoints than it has rows |
| `ScanInvariant.CutGrows` | src-tauri/src/application/scanner.rs:368-384 | One more batch takes the tables from one prefix of a page to the next, the k-th folder checkpoint going in no later than the k-th row |
| `ScanModel.FolderRowsRunAhead` | src-tauri/src/application/scanner.rs:365-384 | Among the first n rows of a page every folder has its checkpoint among the first n folder checkpoints |
| `ScanInvariant.AnyPrefixIsRecoverable` | src-tauri/src/application/scanner.rs:365-397 | After every prefix of the commits of a page each committed folder still to be read has a checkpoint whose earlier pages are all committed |
| `ScanInvariant.PageEndIsRecoverable` | src-tauri/src/application/scanner.rs:399-431 | Moving or dropping the folder's checkpoint after its page keeps the tables recoverable |
| `ScanInvariant.PageKeepsPending` | src-tauri/src/application/scanner.rs:399-439 | After a page every checkpoint again has its entry in the queue and every entry can be worked on |
| `ScanInvariant.CompletedScanIsExact` | src-tauri/src/application/scanner.rs:137-187 | Recoverable tables without checkpoints hold exactly the ids reachable from the roots through folders the scan descends into, each in the one state its own record calls for: trashed, shared drive, owned by the target, not owned by the source, shortcut or eligible |
| `ScanInvariant.ExactIsUnique` | src-tauri/src/application/scanner.rs:137-187 | Any two completed scans of the same roots found the same ids in the same states |
| `ScanMeasure.PageShrinksMeasure` | src-tauri/src/application/scanner.rs:137-185 | Each applied page lowers a measure over pages left in queued work and pages of folders not yet met, for any listing with cycles, several parents or repeated ids |
| `Scanner.PageStep` | src-tauri/src/application/scanner.rs:165-184 | One page of a wave, in any order of arrival: its end and every cut inside it are resumable, the queue is complete and the measure smaller |
| `Scanner.ScanRun.RunWave` | src-tauri/src/application/scanner.rs:142-184 | The pages of a wave may arrive in any order and any may fail; what is left is resumable, and a whole wave lowers the measure |
| `Scanner.ScanRun.RunWaves` | src-tauri/src/application/scanner.rs:137-187 | The wave loop ends for every Drive; it stops with resumable tables, completes only with no checkpoint left, and without faults it completes |
| `Scanner.ScanRun.RunScan` | src-tauri/src/application/scanner.rs:105-188 | A run from any resumable tables leaves resumable tables whatever stops it, seeds only empty ones, and without faults completes |
| `Scanner.ScanRun.ScanHistory` | src-tauri/src/application/scanner.rs:105-188 | After any number of runs, each paused, failed or cut short between two commits, a completed scan has committed exactly the reachable ids with their states, no checkpoint remains, and the tables are those of a history of runs as `ScanHistories` has them |
| `ScanSeed.SeedIsResumable` | src-tauri/src/application/scanner.rs:196-219 | Roots committed as one unit leave tables from which their scan can be resumed |
| `ScanSeed.ChunkIsSeed` | src-tauri/src/application/scanner.rs:201-216 | A chunk of the roots with the checkpoints filtered for it is the seeding of just those roots |
| `ScanSeed.ChunkedSeedLosesRoots` | src-tauri/src/application/scanner.rs:113-124 | With more than a hundred distinct roots a stop after the first chunk loses the others: the tables are not empty, so no later run seeds again, and the completed scan misses a root |
| `ScanSeed.SeedingIsSafeIffOneChunk` | src-tauri/src/application/scanner.rs:196-219 | Chunked seeding survives every stop exactly when the distinct roots fit one chunk |
| `ScanOrder.PageKeepsDepths` | src-tauri/src/application/scanner.rs:324-363 | A page gives each item it finds one more than the depth of the folder that lists it, and changes no other row |
| `ScanOrder.PageRejoins` | src-tauri/src/application/scanner.rs:399-439 | The queue after a page holds exactly what the tables store for the work in it, nothing twice |
| `ScanOrder.PageLeadsOn` | src-tauri/src/application/scanner.rs:317-443 | A whole page keeps it that every item but a root has a committed folder that lists it, one level up |
| `ScanOrder.RowsAloneLeadOn` | src-tauri/src/application/scanner.rs:365-397 | So does a stop with all rows of a page in and the folder's own checkpoint not yet moved on |
| `ScanHistories.EventKeepsOrder` | src-tauri/src/application/scanner.rs:105-188 | Every event of a run keeps the leaf-first order, but for a stop inside a page that is too large for one batch |
| `ScanHistories.HistoryKeepsOrder` | src-tauri/src/application/scanner.rs:105-188 | Any history of runs keeps the order if every page fits one batch, or if none of its runs stopped inside a page |
| `ScanOrder.ItemsPrecedeTheirFolder` | src-tauri/src/infrastructure/item_store.rs:449-483 | In every list ordered deepest first, an item comes before the folder that led to it |
| `Scanner.ScanRun.SmallPageHistory` | src-tauri/src/application/scanner.rs:105-188 | Where pages fit one batch, a completed scan is leaf first however its runs were stopped |
| `Scanner.ScanRun.WholePageHistory` | src-tauri/src/application/scanner.rs:105-188 | After any number of runs that pause or meet failing listings, but whose commits all succeed, a completed scan is exact and leaf first, whatever the size of its pages |
| `ScanStops.StopInsidePageTurnsOrder` | src-tauri/src/application/scanner.rs:365-384 | Five runs over a concrete Drive, the first stopped between two commits of its page: the scan completes with a folder deeper than the only thing in it, and every list deepest first names the folder before it |
| `ScanStops.OrderIsSafeIffPagesFitOneBatch` | src-tauri/src/application/scanner.rs:317-443 | For every concurrency: the leaf-first order survives every stop of every run, over every Drive whose pages have at most n entries, if and only if n is at most the batch size |
| `Scanner.ScanRun.StartSeededScan` | src-tauri/src/application/job_service.rs:1206-1223 | A job created with its roots in one transaction is resumable for all of them, however many |
| `Scanner.ScanRun.SeededHistory` | src-tauri/src/application/job_service.rs:1206-1223 | Any history of such a job that completes is exact for all its roots, without a limit on their number, and leaf first where pages fit one batch |
| `Backoff.DelayIsDocumentedFormula` | src-tauri/src/application/backoff.rs:43-47 | The saturating form is two to the attempt plus jitter, at most 64 seconds, for every attempt and jitter |
| `Backoff.SleepTable` | src-tauri/src/application/backoff.rs:5-47 | With jitter at most one second a whole bounded retry sleeps at most 69 seconds |
| `Backoff.LeastSleepTable` | src-tauri/src/application/backoff.rs:5-47 | Without jitter six failed attempts cost 63 seconds, each attempt its power of two |
| `DriveModel.FindTargetPermissionMeaning` | src-tauri/src/application/transfer.rs:674-686 | The permission found is one of the target's, by id or by address without regard to case, and none is found only if there is none |
| `DriveModel.FirstTargetIsFound` | src-tauri/src/application/transfer.rs:674-686 | Of several such permissions the first in the list is found |
| `DriveModel.CaseIsIgnored` | src-tauri/src/application/transfer.rs:674-686 | Addresses are the same exactly if they have the same length and at each place the same character or the same letter from A to Z in either case |
| `DriveModel.GrantKeepsSane` | src-tauri/src/application/transfer.rs:384-410 | A pending-owner request that takes effect leaves the source owning and the granted permission pending |
| `DriveModel.AcceptKeepsSane` | src-tauri/src/application/transfer.rs:436-440 | An acceptance that takes effect makes the target the one owner |
| `TransferModel.AdvancingFollowsTable` | src-tauri/src/application/transfer.rs:412-427 | Advancing to acceptance walks edges of the transition table only and succeeds exactly from the states before or at acceptance |
| `Items.TableByRules` | src-tauri/crates/gdom-migration/src/item.rs:142-201 | The transition table is exactly: one step forward, or straight to verification; skipped as in the trash from anywhere under way, as in a shared drive before acceptance is saved as required, for its owner or its kind only before anything was asked for; failed or given up from anywhere under way |
| `Items.PathsKeepTheOrder` | src-tauri/crates/gdom-migration/src/item.rs:142-209 | Along any path of the table a terminal state stays, and an item is verified, transferred or accepting only after it was verifying, accepting or ready to accept |
| `Jobs.StatusKinds` | src-tauri/crates/gdom-migration/src/job/status.rs:51-74 | Every job status is of exactly one kind: set up or in review, with a worker, resumable, or at its end |
| `Jobs.TerminalIsFinal` | src-tauri/crates/gdom-migration/src/job/transfer.rs:4-318 | No transition of a worker, a request or the queue takes a job out of a status that ends it |
| `TransferModel.EffectKeepsLinked` | src-tauri/src/application/transfer.rs:429-444 | No call that takes effect, reported or not, breaks what the row saved before it says about the file |
| `TransferModel.ReconciledFits` | src-tauri/src/application/transfer.rs:746-781 | Reconciling follows the transition table; with a truthful Drive the row fits the file, is still to be transferred, and does not wait to accept what the target owns already |
| `TransferModel.ReconciledAsRead` | src-tauri/src/application/transfer.rs:746-781 | By one read an interrupted item is skipped exactly if the file is in the trash, being verified exactly if it was or the target alone owns the file, ready to accept exactly if a pending permission of the target was not noted yet, and otherwise where it was; the permission and the error saved follow too |
| `Transfer.TransferRun.StoreItem` | src-tauri/src/infrastructure/item_store.rs:509-625 | A save that reports an error has either happened or not; the table is otherwise as it was |
| `Transfer.TransferRun.Perform` | src-tauri/src/application/transfer.rs:436-458 | Every call is logged with the row saved for its file at that moment; acceptance is called only under a row saved as accepting with that very permission |
| `Transfer.TransferRun.Retry` | src-tauri/src/application/transfer.rs:493-517 | Between one and seven calls, all alike and under one saved table, at most 69 seconds asleep; every call but the last was answered with a fault worth repeating: a rate limit, an unavailable server, a broken connection, or with the target's token a missing file. An error left for later comes only of seven such answers and at least 63 seconds, an error for good or one that stops the job is that of the last answer |
| `Transfer.TransferRun.ActOn` | src-tauri/src/application/transfer.rs:343-410 | An item is skipped, sent to verification or asked for only as the snapshot demands; an existing permission is updated and never duplicated, and left alone if it is pending or an owner's; without faults the item ends ready to verify or to accept |
| `Transfer.TransferRun.ReconcileAndPrepare` | src-tauri/src/application/transfer.rs:315-410 | At most 14 calls and 138 seconds; what is decided is saved before it is returned, and an illegal transition can only come from a row saved as pending owner created |
| `Transfer.TransferRun.AcceptOwnership` | src-tauri/src/application/transfer.rs:429-444 | The row is saved as accepting before the first call and as transferred after a success; every failure but a failed save leaves it saved as accepting |
| `Transfer.TransferRun.LookUntilConfirmed` | src-tauri/src/application/transfer.rs:453-490 | At most 49 calls and 552 seconds; success means the last read with the target's token showed the target owning, the source not, not trashed and the same parents; an item is left for later only after seven looks or seven faults in a row |
| `Transfer.TransferRun.FinalizeStep` | src-tauri/src/application/transfer.rs:635-666 | A stopped step is saved with its error: still active when the job must halt, failed for good or for now otherwise |
| `Transfer.TransferRun.TransferOne` | src-tauri/src/application/transfer.rs:282-313 | At most 70 calls and 759 seconds, all about this item; how the step ends and what is saved follows from its last call alone, without the classification: verified only if that call confirmed it, skipped if it showed the trash or a shared drive, failed for good, left for later after the full time, or halted; an error of the run needs a fault of the store or a row saved as pending owner created; without faults the item ends verified with the target as sole owner |
| `TransferModel.LastAnswerDecides` | src-tauri/src/application/transfer.rs:519-553 | If the last call was answered with a rate limit, an unavailable server, a broken connection, or a missing file with the target's token, then so were the six before it, 63 seconds were slept and the item is saved as failed for now; with a refusal, an invalid response, an unexpected status or a missing file with the source's token, it is saved as failed for good; a sharing limit, a full quota or a refused token halts the job, and the error saved is that of the answer |
| `TransferModel.ClassifiedByVerdict` | src-tauri/src/application/transfer.rs:519-553 | The classification of a fault by phase agrees with what the answer and the token of the call mean for the item |
| `TransferModel.ProgressStep` | src-tauri/src/application/transfer.rs:237-249 | One item's step leaves all items before it as they were, all after it untouched and every verification with its evidence |
| `TransferModel.RunStep` | src-tauri/src/application/transfer.rs:241-247 | The running counts of verified and failed items stay exact; a run goes on after every verified, skipped or failed item, and stops only for trouble, a fault of the store or a row saved as pending owner created |
| `TransferModel.RunRetried` | src-tauri/src/application/job_service.rs:1804-1812 | A retry request keeps the counts, the evidence and the later items of a run, and unsettles exactly the failed items dealt with |
| `Transfer.TransferRun.TransferItems` | src-tauri/src/application/transfer.rs:231-251 | On exhaustion every item of the slice is saved as verified, skipped or failed, unless a retry request has reset it behind the run, and the counts are exact; on a halt at an index every earlier item is so, every later row is unchanged by the run, and the item itself keeps its error and the trouble its last call showed; a run pauses or is cancelled only if it was asked to, and ends in an error only with a fault of the store or at a row saved as pending owner created |
| `Transfer.TransferRun.MeetRetry` | src-tauri/src/application/job_service.rs:1804-1812 | Between two items a retry request may reset whatever has failed; the run goes on with its list as it was read, its counts and the evidence for what it verified stand, and exactly the failed items it had dealt with are no longer settled |
| `Transfer.TransferRun.ReconcileOne` | src-tauri/src/application/transfer.rs:712-782 | One read, with the source's token before acceptance and the target's after, and no other call; what is saved and reported follows from its answer: where the file stands, given up if it is missing, halted with the account of a refused token; any other fault changes nothing and ends the pass; without faults the item is still to be transferred and not waiting to accept what the target owns |
| `Transfer.TransferRun.ReconcileCheckpoint` | src-tauri/src/application/transfer.rs:696-710 | Only reads; rows outside the list are untouched; a pass to its end has read every item an interruption may have left between two steps, with the right token; it is stopped only by a refused token, which its last call shows; without faults every listed item is acceptable afterwards |
| `Transfer.TransferRun.ListItemsForTransfer` | src-tauri/src/infrastructure/item_store.rs:449-483 | The rows still to be transferred, each once, in any order |
| `Transfer.TransferRun.ListCanaryCohort` | src-tauri/src/infrastructure/item_store.rs:485-507 | The rows flagged as canary, each once, in any order |
| `TransferModel.GivingUpKeepsWhatIsUnderWay` | src-tauri/crates/gdom-migration/src/item.rs:128-133 | Cancelling follows the transition table, changes only the state of items not begun or to be tried again, and leaves to be transferred exactly those at an intermediate checkpoint or ready to accept |
| `Transfer.TransferRun.CancelUnstartedItems` | src-tauri/src/infrastructure/item_store.rs:627-680 | All unstarted items are cancelled in one transaction, or none is |
| `Transfer.TransferRun.RetryFailedItems` | src-tauri/src/infrastructure/item_store.rs:682-734 | All retryable failures go back before acceptance without their error, or none does |
| `TransferModel.RetryForgives` | src-tauri/src/infrastructure/item_store.rs:682-734 | Exactly the retryable failures stand before their request again, without error and with their permission and canary mark, each by an edge of the table; what has failed for good stays, and only that is failed afterwards |
| `Transfer.TransferRun.SelectCanaryBatch` | src-tauri/src/application/transfer.rs:147-184 | An existing cohort is left as it is; else the batch is all that is under way, or, when nothing is, exactly as many items as the canary size allows, all started; every item of it is saved as canary before anything else, and nothing else changes |
| `TransferJobs.ExecuteCanary` | src-tauri/src/application/transfer.rs:114-123 | Every Drive call of a canary is about an item saved as canary; the job is left in review, or in the status of what stopped it; on exhaustion an item of the cohort is at rest if and only if no retry request reset it after the run had dealt with it, and without faults its part still to be transferred is verified |
| `TransferJobs.ExecuteBulk` | src-tauri/src/application/transfer.rs:186-219 | On exhaustion an item of the job is at rest if and only if no retry request reset it after the run had dealt with it, and the job completes without errors exactly when none is failed; otherwise the status is that of what stopped it; without faults every item it set out with is verified |
| `TransferJobs.ExecuteAutoTransfer` | src-tauri/src/application/transfer.rs:125-145 | A canary that comes to its end completes the job exactly if nothing is left to transfer outside the cohort, and leaves it in review otherwise; after that completion an item of the job is at rest if and only if no retry request reset it behind the run; where only canary items had failed before, it reports errors exactly when some item failed |
| `TransferJobs.EarlyCompletionIsTotal` | src-tauri/src/application/transfer.rs:131-142 | When all that remains is the cohort, the items at rest in the job are all but those of the cohort reset behind the run, and the cohort's failures are all its failures |
| `TransferJobs.RunTransferAuto` | src-tauri/src/application/job_service.rs:781-840 | No Drive call is about an item outside the cohort unless the cohort is not empty and every member of it is saved as verified at that moment. The run stays in review only with a canary that is neither all there is nor verified throughout, and otherwise ends the job with everything at rest but what was reset behind it; an error needs a fault of the store or a row saved as pending owner created; without faults a run that comes to its end outside review has verified every item that was to be transferred |
| `TransferJobs.GoOnFromReview` | src-tauri/src/application/job_service.rs:821-838 | From a canary in review with more to transfer the run goes on to the bulk run exactly if the cohort is verified throughout |
| `TransferJobs.AutoAdvanced` | src-tauri/src/application/job_service.rs:821-838 | A canary verified throughout and the bulk run after it come together to what an automatic run promises: every call gated, all at rest but what was reset, and without faults all verified |
| `TransferJobs.GateHolds` | src-tauri/src/application/job_service.rs:821-837 | A verified cohort stays verified under every call of the bulk run |
| `TransferJobs.Resume` | src-tauri/src/application/job_service.rs:1737-1783 | A job that seems to be in the scan phase, or is in no status to resume, is refused and nothing changes; otherwise the job is left in the status of how the run in its phase ended, to sign in again where a look was refused; without faults, once it ends, every item of that phase still to be transferred is verified and the target is its only owner |
| `TransferJobs.InterruptedThenResumed` | src-tauri/src/application/transfer.rs:315-444 | After any number of canary, bulk, automatic and resumed runs, retries and cancellations against a Drive and a store that may fail before or after taking effect, one undisturbed resume that is let through and not asked to stop comes to its end, verifies every item of its phase not given up, and its file belongs to the target alone |
| `Completion.RestIsReported` | src-tauri/src/application/final_report.rs:57-82 | After a run to the end the report names as unfinished exactly the items that retry requests reset behind the run, and has failures exactly when some item is failed |
| `Completion.BulkThenReport` | src-tauri/src/application/transfer.rs:193-198 | A completed bulk run is reported with as many items unfinished as retry requests reset behind it, and is complete without errors exactly when the report counts no failure |
| `Completion.AutoThenReport` | src-tauri/src/application/transfer.rs:129-143 | The same for the early completion of an automatic run, where only canary items had failed before |
| `Completion.ScanHandsOver` | src-tauri/src/application/scanner.rs:334-353 | The rows of a completed scan are the reachable items, each eligible or skipped, none in a canary, under way or failed |
| `Completion.ScanToReport` | src-tauri/src/application/final_report.rs:57-82 | From the tables of a completed scan to the report: an early completion counts every reachable item once, as unfinished exactly those reset behind the run, and is without errors exactly when none is failed |
| `Queue.OrderIsUnique` | src-tauri/src/application/queue_service.rs:48-48 | A set of queued jobs has one order by position and id |
| `Queue.OrderMeans` | src-tauri/src/application/queue_service.rs:43-48 | In that order a smaller position comes first, a job without one last, and the older job where both have the same or none |
| `Queue.SortQueue` | src-tauri/src/application/queue_service.rs:43-48 | The queued jobs in that order, each once |
| `Queue.QueueStore.PersistQueueChanges` | src-tauri/src/infrastructure/job_queue.rs:6-66 | A commit applies all changes and logs one event for each, or changes nothing; it succeeds only if the queue and every changed job stand as in the snapshot and no changed job is leased, and reports truthfully which of these failed |
| `Queue.QueueStore.PersistQueue` | src-tauri/src/application/queue_service.rs:110-136 | The jobs are numbered from one in the order given, jobs outside the list keep their rows, and each event names the status the job had at commit |
| `Queue.QueueStore.ChangeQueue` | src-tauri/src/application/queue_service.rs:24-60 | Whatever snapshot it was computed from, a successful change takes the table at commit time to the sequential insertion of the job at the place asked for, or at the end, numbered from one, and no worker holds a job of the queue; a failed one changes nothing; requests out of range or from a wrong status are refused exactly |
| `Jobs.QueueableWhereRestorable` | src-tauri/crates/gdom-migration/src/job/transfer.rs:249-287 | A job may be queued exactly from a resumable status or one the queue can put it back to; out of the queue it goes to those three only, and from there it may be queued again |
| `Queue.EventsInTurn` | src-tauri/src/application/queue_service.rs:110-136 | A rewritten queue is logged job by job, each event naming the status it came from and the one it has now |
| `Queue.InsertionIsTheNewOrder` | src-tauri/src/application/queue_service.rs:49-58 | After the change the queue order is the old order of the other jobs with the job at its place |
| `Queue.QueueStore.RemoveQueuedJob` | src-tauri/src/application/queue_service.rs:62-108 | The job leaves the queue for the status its events told when they were read, however long before the commit; the others keep their order and are numbered from one; a failed removal changes nothing |
| `Queue.RemovalKeepsTheOrder` | src-tauri/src/application/queue_service.rs:98-106 | After a removal the queue order is the old order of the jobs that stay |
| `Queue.RestoredStatus` | src-tauri/src/application/queue_service.rs:71-97 | Ready for review exactly if queued from there, or if nothing shows work and neither the origin nor the newest status event names paused or canary review; canary review exactly if queued from there, or if the newest status event led there and the origin does not tell otherwise; paused in all other cases |
| `Queue.StoppedGoesBackPaused` | src-tauri/src/application/queue_service.rs:71-97 | A job queued after a rate limit, a quota wait or a lost sign-in goes back to paused if anything shows work: a cohort, items begun in bulk, scan checkpoints, or a newest status event out of a running status; unless that event left it in canary review |
| `Queue.RequeuingKeepsOrigin` | src-tauri/src/infrastructure/job_store.rs:74-92 | Events of a job that is queued already never hide the status it was queued from |
| `Queue.QueueingRecordsOrigin` | src-tauri/src/application/queue_service.rs:125-126 | Queueing a job records the status it had |
| `Queue.InsertionUndone` | src-tauri/src/application/queue_service.rs:98-106 | Taking a job out again leaves the others in the order they had without it |
| `Queue.QueueAndRemove` | src-tauri/src/application/queue_service.rs:24-108 | Queue a job, serve any other requests from any snapshots, read its events at any point between them, take the job out: it has its old status back exactly when that was ready for review, paused or canary review, any other status gives the one its newest status event and its items call for, the newest event tells so, and the rest is numbered from one |
| `Queue.StaleEventsRestoreReview` | src-tauri/src/application/queue_service.rs:74-97 | Events read before the job was taken out, transferred for a while, paused and queued again put it back in review, though it was queued while paused and its row looks the same |
| `Leases.StepIsSafe` | src-tauri/src/application/job_service.rs:236-285 | One step of any task keeps the four parts of safety, unless it is a late release by a pause |
| `Leases.EveryRunIsSafe` | src-tauri/src/application/job_service.rs:517-557 | Any interleaving of starts, resumes, scans, pauses, installations, restarts and failures is safe throughout if and only if no pause releases the leases of a worker that started after it looked; safe means at most one task in the transfer slot, the lease of this instance on disk that task's unless a call about it failed, at most one scan for each job, and the gate counting exactly the tasks at work |
| `Leases.LateReleaseIsUnsafe` | src-tauri/src/application/job_service.rs:1710-1735 | A pause that releases after it looked keeps safety exactly when the slot does not name its job by then |
| `Leases.LateReleaseAdmitsTwoWorkers` | src-tauri/src/application/job_service.rs:1710-1735 | A worker that starts for the job between a pause's look and its release loses its leases, and a second worker starts beside it |
| `Leases.OnlyAStartBetweenHurts` | src-tauri/src/application/job_service.rs:1710-1735 | Whatever steps lie between a pause's look and its release, the release is harmless unless a worker started between them |
| `Leases.TransfersComeAndGo` | src-tauri/src/application/job_service.rs:517-557 | A transfer worker gives back the gate, the slot and the lease it took, and nothing else changes |
| `Leases.RequestsComeAndGo` | src-tauri/src/application/update_gate.rs:14-29 | A request is let in exactly when no installation holds the gate, and leaves everything as it was |
| `Leases.ScansComeAndGo` | src-tauri/src/application/update_gate.rs:14-29 | A scan gives back its slot and its hold on the gate |
| `Leases.RestartFreesAll` | src-tauri/src/application/job_service.rs:1814-1823 | After a restart a worker can start for any job, whatever was at work before |
| `Leases.StartsIffLeasesAreFree` | src-tauri/src/application/job_service.rs:541-557 | A transfer worker starts exactly when the slot in memory and the lease on disk are both free |
| `Leases.AdmissionIsExact` | src-tauri/src/application/update_gate.rs:14-29 | A scan starts exactly when its job is not being scanned, and an installation exactly when no request, transfer or scan is at work |
| `Leases.InstallationIsAlone` | src-tauri/src/application/update_gate.rs:14-29 | While an installation holds the gate no task is at work and none can begin before it ends |
| `Leases.NothingLeaks` | src-tauri/src/application/job_service.rs:275-285 | When the last transfer task is gone both leases are free, unless another instance holds the one on disk or a call about it has failed |
| `JobSteps.SelectionIsStep` | src-tauri/src/application/transfer.rs:147-184 | What the selection of a canary promises is what the canary's worker of the state machine may save |
| `JobSteps.ItemStepIsWork` | src-tauri/src/application/transfer.rs:241-247 | One item's step of a transfer run is a step of the worker of the state machine, and settles the item unless it stops the run |
| `JobSteps.ReadingLooksOver` | src-tauri/src/application/transfer.rs:712-782 | A look at an interrupted item is one that a resume or a startup of the state machine may make |
| `PhaseRecovery.StepKeepsPhase` | src-tauri/src/application/job_service.rs:1917-1936 | Every step keeps it that the newest status event, if it names a phase, names that of the last worker: a worker's start, its saves and its end, a crash, a startup, a scan, a queue operation, a request and events of other jobs |
| `PhaseRecovery.PhaseIsRecovered` | src-tauri/src/application/job_service.rs:1917-1948 | In every run of a scanned job, once a worker has started, an unfinished job would resume in the phase of its last worker if and only if the newest status event names running, running the canary or canary review, or the item table tells the phase: an item outside the canary in the middle or failed for a bulk phase, none for a canary phase |
| `PhaseRecovery.ResumeContinuesThePhase` | src-tauri/src/application/job_service.rs:1737-1783 | In every run, a resume of a stopped job starts a worker if and only if the item table or the newest status event shows a trace of one, or the job is neither paused nor queued while paused and the log tells of a canary; otherwise nothing changes; where the newest status event names a phase the worker is of the phase the job was in |
| `PhaseRecovery.OnceSelectedAlwaysResumable` | src-tauri/src/application/job_service.rs:1950-1967 | Once a canary has saved one item of its batch, no later resume of the stopped job is ever refused for looking like a scan, whatever steps lie between |
| `PhaseRecovery.RepausingForgetsThePhase` | src-tauri/src/application/job_service.rs:1710-1735 | After a second pause, over all steps that write no other status event of the job, a bulk phase is recovered if and only if an item outside the canary is in the middle or failed, a canary phase if and only if none is |
| `PhaseRecovery.PausedTwiceThenResumed` | src-tauri/src/application/job_service.rs:1938-1967 | A job paused twice and resumed starts a worker if and only if the item table shows a canary or a bulk run, and then one of the phase the table tells, whatever worker it had |
| `PhaseRecovery.TroubleQueuedGoesOn` | src-tauri/src/application/queue_service.rs:71-97 | A job its worker left after a rate limit, a quota wait or a lost sign-in, queued and taken out again, is paused with its items as they were, and a resume goes on with it in the phase it was in |
| `JobRules.HaltsAreEnds` | src-tauri/src/application/transfer.rs:202-219 | The statuses in which a worker of the state machine may leave an unfinished job are exactly the one of its phase, after a fault, and those the ends of a transfer run leave it in |
| `JobRules.CompletionsAreEnds` | src-tauri/src/application/transfer.rs:125-145 | A worker of the state machine completes its job exactly with nothing left, a canary only an automatic one that was all there is, with errors exactly if its cohort, or for a bulk run the whole job, has a failed item |
| `JobRules.WorkerNamesPhase` | src-tauri/src/application/job_service.rs:973-1025 | In every run a job with a worker is in the phase of that worker, and one in canary review in its canary |
| `JobRules.CanaryShowsNoBulk` | src-tauri/src/application/job_service.rs:1938-1948 | Whatever a first canary does to its batch, the item table does not look like that of a bulk run |
| `JobRules.BulkOnlyAfterVerifiedCanary` | src-tauri/src/application/job_service.rs:821-837 | However its steps are interleaved with other events, a canary turns into a bulk run by itself only after a moment at which its whole cohort was verified |
| `JobRules.CancelledHasNothingToStart` | src-tauri/src/infrastructure/item_store.rs:627-680 | In every run, once a job is cancelled no item of it is left to be begun or tried again, whatever is asked for afterwards |
| `JobRules.DeadWorkerGoesOn` | src-tauri/src/application/job_service.rs:1710-1783 | In every run, a job whose worker has died is paused by a request and then resumes in the phase it was in |
| `JobRules.PausedGoesOneWay` | src-tauri/src/application/job_service.rs:973-1025 | A paused job goes on in one way only: a resume starts a worker exactly when the job cannot be scanned again |
| `JobRules.QueuedStartsInItsPhase` | src-tauri/src/application/job_service.rs:1600-1625 | In every run, a queued job that has had a worker and whose newest status event names a phase is started as a bulk run exactly if it was not in its canary |
| `PhaseRuns.DeadCanaryStaysPaused` | src-tauri/src/application/job_service.rs:989-1000 | A concrete run: a canary dies before it saves its choice; the job is paused, its log names the canary phase, and every resume, however often tried, is refused and changes nothing |
| `PhaseRuns.DeadCanaryStartsAgain` | src-tauri/src/application/job_service.rs:1574-1588 | Such a job gets its canary by scanning again or by being queued and started |
| `PhaseRuns.BulkResumesAsCanary` | src-tauri/src/application/job_service.rs:1710-1783 | A concrete run over six items: a bulk run paused twice before the last item resumes as a canary |
| `PhaseRuns.CanaryResumesAsBulk` | src-tauri/src/application/job_service.rs:1710-1783 | A concrete run over six items: after a bulk run that left a failed item, a canary cut off, paused again and resumed goes on as a bulk run |
| `PhaseRuns.BulkCompletesUnfinished` | src-tauri/src/application/job_service.rs:1804-1812 | A concrete run: the bulk worker's last item fails for now, a retry request resets it, and the worker completes the job without errors, the item neither transferred nor failed |
| `PhaseRuns.CanaryCompletesUnfinished` | src-tauri/src/application/transfer.rs:129-143 | A concrete run of an automatic job: the whole canary fails for now, a retry request resets it, and the job completes early without errors, nothing transferred |
| `Tokens.OneAtATime` | src-tauri/src/application/account_token_provider.rs:150-165 | No two tasks of one account are past its lock at once |
| `Tokens.InsertingKeepsLocks` | src-tauri/src/application/account_token_provider.rs:294-309 | Tasks that race to create an account's lock all end up with the same one |
| `Tokens.StepKeepsLocks` | src-tauri/src/application/account_token_provider.rs:135-275 | Every step keeps one lock for each account and one holder for each lock, and a held lock names a task that will let go of it |
| `Tokens.StepKeepsInv` | src-tauri/src/application/account_token_provider.rs:135-275 | A request refreshes only while no valid token is cached, in every interleaving |
| `Tokens.MarkingBars` | src-tauri/src/application/account_token_provider.rs:254-269 | Marking, once it succeeds, leaves the account to sign in again, nothing cached and no refresh under way, even one that was in flight when marking began |
| `Tokens.BarredStays` | src-tauri/src/application/account_token_provider.rs:135-252 | No step but reconnecting brings a token back to such an account |
| `Tokens.NoTokenUntilReconnected` | src-tauri/src/application/account_token_provider.rs:135-269 | After marking has returned, no task of the account, begun before or after, obtains a token in any run until the account is reconnected |
| `Tokens.OneRefreshServesAll` | src-tauri/src/application/account_token_provider.rs:135-228 | However many requests interleave, at most one refresh of an account succeeds while its token is neither taken away, expired nor forced, and none while a valid one is cached |
| `Tokens.RequestObtainsToken` | src-tauri/src/application/account_token_provider.rs:135-235 | A request that nothing valid in the cache satisfies, or a forced one whatever is cached, obtains the token that is granted, caches it in place of any other, leaves the account connected and lets go of the lock |
| `Tokens.RefusalIsRecorded` | src-tauri/src/application/account_token_provider.rs:200-251 | A refused request ends without a token, its lock free and the cache as it was: the account has to sign in again after an invalid grant, has its old status after any other error, and is left as refreshing where no credential was found |
| `Tokens.BarredIsRefused` | src-tauri/src/application/account_token_provider.rs:178-197 | An account that is gone, being removed or to sign in again is refused before anything is sent, and nothing changes |
| `Tokens.MarkingWithdrawsAtOnce` | src-tauri/src/application/account_token_provider.rs:254-260 | From its first step on, before it has the lock, marking keeps the rejected token from any request that begins |
| `Tokens.ReconnectedObtainsToken` | src-tauri/src/application/account_token_provider.rs:135-235 | Whatever barred an account, once it is reconnected a request for it obtains a token again |
| `CivilDate.EraRoundsDown` | src-tauri/src/application/time.rs:21-23 | The shift before the truncating division makes the era the rounded-down quotient for every integer, negative ones too |
| `CivilDate.FormulaFindsYear` | src-tauri/src/application/time.rs:24-24 | The divisions by 1460, 36524 and 146096 give the year of every day of an era |
| `CivilDate.DateIsValid` | src-tauri/src/application/time.rs:20-32 | Every integer day number has a valid date of the proleptic Gregorian calendar |
| `CivilDate.NextDayIsSuccessor` | src-tauri/src/application/time.rs:20-32 | The next day number has the calendar's next date |
| `CivilDate.DateCountsBack` | src-tauri/src/application/time.rs:20-32 | Counting the days of whole years and months up to the date gives the day number back, for every integer |
| `CivilDate.EveryDateIsReached` | src-tauri/src/application/time.rs:20-32 | Every valid date is the date of its day number |
| `CivilDate.DatesFollowDays` | src-tauri/src/application/time.rs:20-32 | Later day numbers have later dates |
| `DecimalText.PaddedIsFixed` | src-tauri/src/application/time.rs:17-17 | A number that fits its field is written with exactly the field's digits |
| `DecimalText.IntReadsBack` | src-tauri/src/application/final_report.rs:138-142 | The text of an integer is decimal digits, with a minus sign for a negative one, that stand for it and for no other |
| `Timestamps.FieldOrder` | src-tauri/src/application/time.rs:17-17 | Fields of one width compare as text the way they compare as numbers, and pass on to what follows when equal |
| `Timestamps.TextOrderIsTimeOrder` | src-tauri/src/application/time.rs:1-18 | Up to the year 9999, timestamps are in text order exactly when the instants are in time order, to the millisecond |
| `Timestamps.TimestampReadsBack` | src-tauri/src/application/time.rs:1-18 | Up to the year 9999 a timestamp has 24 characters with its marks in place, and the numbers in its digit fields are a valid date, an hour below 24, a minute and a second below 60 and milliseconds that count back to exactly its instant |
| `Timestamps.OneReading` | src-tauri/src/application/time.rs:1-18 | A text has one such reading, and a reading stands for one instant |
| `Timestamps.NewestTextIsNewest` | src-tauri/src/infrastructure/job_store.rs:823-829 | Reading events newest text first never puts an earlier instant before a later one |
| `Csv.CellReadsBack` | src-tauri/src/application/preflight.rs:133-147 | Any string written as a cell is read back, by the quoting rules of section 2 of RFC 4180, with an apostrophe in front exactly when it starts with an equals, plus, minus or at sign, a tab, a carriage return or a line feed; no cell as it is read starts with one of these |
| `Csv.RowReadsBack` | src-tauri/src/application/preflight.rs:156-170 | A row of cells is read back cell by cell, and what follows it is untouched |
| `Csv.FileReadsBack` | src-tauri/src/application/preflight.rs:149-171 | Any number of rows is read back row by row |
| `Reports.RenderItemsCsv` | src-tauri/src/application/preflight.rs:149-171 | Reading the export gives the header and, for every item, its text cells guarded and its depth verbatim |
| `Reports.DryRunColumnsHold` | src-tauri/src/application/preflight.rs:149-171 | Under each heading for text a reader finds the field it names, guarded |
| `Reports.DryRunNumbersHold` | src-tauri/src/application/preflight.rs:149-171 | Under depth stands a text that stands for the depth, and so for a size that is not negative |
| `Reports.StateNameReadsBack` | src-tauri/crates/gdom-migration/src/item.rs:60-81 | The name of a state is read back as that state |
| `FinalReport.CountItems` | src-tauri/src/application/final_report.rs:57-82 | The five kinds make up the total and each is the number of items in its states |
| `FinalReport.AppendRow` | src-tauri/src/application/final_report.rs:162-178 | A row is its redacted values, as CSV cells between commas or with breaks as spaces between tabs |
| `FinalReport.SpacedMeans` | src-tauri/src/application/final_report.rs:171-174 | In the tab-separated form exactly the tabs and line breaks of a value are spaces, everything else stays in its place |
| `FinalReport.ReportReadsBack` | src-tauri/src/application/final_report.rs:162-178 | Lines of any redacted values are read back from the CSV form, each value guarded |
| `FinalReport.TsvReadsBack` | src-tauri/src/application/final_report.rs:162-178 | Lines of any redacted values are read back from the tab-separated form, each value with its breaks as spaces |
| `FinalReport.ItemColumns` | src-tauri/src/application/final_report.rs:112-158 | Under the headings for id, name, type, depth and size stands what they name, numbers as text that reads back |
| `FinalReport.MoreItemColumns` | src-tauri/src/application/final_report.rs:112-158 | So under those for state, error, times and parents |
| `FinalReport.ParentsReadBack` | src-tauri/src/application/final_report.rs:147-147 | The parents joined by semicolons split back into the same parents when none of them holds one |
| `FinalReport.MetadataCounts` | src-tauri/src/application/final_report.rs:98-103 | The metadata names each of the six counts with its number |
| `FinalReport.Render` | src-tauri/src/application/final_report.rs:84-159 | The report is metadata with the counts, roots and items in that order, and reads back as exactly those lines in either form |

## Left out

- Non-recursive seeding: roots are written without checkpoints and nothing is scanned below them.
- Transfer.TransferRun.ListItemsForTransfer: does not state the order by depth and name, because transfers are proved for lists in any order; the order by depth is the subject of the scan order lemmas.
- Transfer.TransferRun.ListCanaryCohort: does not state the order by depth and name, for the same reason.
- Transfer.TransferRun.SelectCanaryBatch: does not state that the items taken are the first of the list, because the list has no order in the model.
- Scanner.ScanStore.CreateSeededScan: leaves out the check of the job's status and the job and root rows of the same transaction.
- Scanner.ScanRun.PersistRoots: requires the roots collected with recursion and empty tables, as the worker calls it; roots without recursion have no checkpoints.
- Transfer.TransferRun.StoreItem: leaves out the event written with the row and the error for a missing row.
- Transfer.TransferRun.CancelUnstartedItems: leaves out the event of each item.
- Transfer.TransferRun.RetryFailedItems: leaves out the event of each item.
- Names, sizes, parents and creation times of scanned rows are not in the scan model; the transfer model keeps the parents.
- Kinds of scan errors: a failed run says whether a root lookup, a listing or a commit failed, not what Drive answered or whether a retry is sensible.
- Job events, progress totals and messages for people; error texts are reduced to their kind.
- Deleting or editing draft jobs.
- `cancel_migration`: in the leases it is the same look and later release as a pause; its change of status and items is a step of the job's state machine.
- A retry request while a canary saves its batch, which those saves may undo.
- In the job's state machine an item that is begun and not settled may be saved as anything that names the same item; the transfer model says what it is.
- Installation refuses while a lease or a busy status is stored, beyond what the gate refuses; only the gate is modelled.
- Other instances of the program, beyond taking and releasing the lease on disk while it is free of this one's.
- Tokens: removal of an account, which discards its lock, and disconnects during a refresh; time is the step that makes a cached token invalid.
- The pausing and cancelling statuses, which no step of the modelled workers writes.
- Integer widths other than the saturating backoff: counts, depths, positions and day numbers are unbounded, the largest position stands for a missing one.
- Redaction of secrets is any function on strings.
- Timestamps before 1970 or after the year 9999, where the year no longer fits four digits.
- The preflight report, its skip totals and quota estimate.
- HTTP clients, OAuth, the keychain, SQL text and schema, the updater, commands and the user interface.
