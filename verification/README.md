# AlRasedah ASM: a verified model

A Dafny model of the parts of the attack-surface platform that have to be right under concurrency, partial
failure and repetition, with proofs over every input, every run or every reachable state.

* **Web captures** (`Captures`, `CaptureOrder`, `CaptureSystem`, `CaptureDesk`, `CaptureBinding`, `CaptureSafety`,
  `CaptureDeletion`, `CaptureWatch`, `CaptureLedger`, `CaptureLife`): the shared browser slots. A state machine over
  requests, cancels, reservations with a possibly stale clock, launches, publication, crashes, redelivery, execution,
  late and repeated results and deletion. The main result is that at most `max_concurrent` capture jobs ever execute. It
  needs that a capture is deleted only after its slot has passed; without that no limit holds, and that is proved too. Beside it: at most one result per capture, an
  exact ledger of the daily allowance, when the watchdog spares a live capture, and each step's effect on one row.
  `CaptureDesk.Desk` is the imperative form; its methods are proved against the functions the steps are made of, and
  `CaptureDesk.ReservationIsStep` ties the reservation to its step.
* **Scan pipeline** (`Scans`, `ScanRuns`, `ScanLife`, `ScanProgress`, `ScanStarts`, `ScanRecord`): stage order, finality,
  exactly-once results, a linear bound on all changes, an end for every scan the watchdog keeps nudging, and the limits
  on running scans, for every interleaving of duplicated tasks.
* **Inventory** (`Assets`, `Cascade`, `IngestRules`, `Recording`, `CoverageRules`, `IngestRuns`, `RunLaws`,
  `DoubleMisses`, `Ingest`, `StageResults`, `Findings`): one run, and any sequence of runs, applied in place:
  sightings, relations, findings, coverage, miss counters, the deactivation cascade, and what incomplete or historical
  runs may not do.
* **Leases** (`Leases`), **audit chain** (`Audit`), **port sets** (`Ports`), **scope** (`Scope`), **risk roll-up**
  (`Risk`), **versions and advisories** (`Versions`, `Matching`).

Properties that do not hold of the code as written are stated with the input that breaks them and with the exact
condition under which they hold: deleting a capture whose slot is still held, a live capture whose dispatch was never
noted and which the watchdog fails, a dispatch noted on a scan that is over, a start split from its read, two misses
in one run, edits outside the audit digest, and the order of the rules for
hosts and networks. Where the settings speak of missed *runs* the code counts missed relations, and the model follows
the code.

The main results, to read first: `CaptureSafety.AtMostMaxConcurrent`, `CaptureDeletion.UnguardedDeletionBreaksLimit`,
`CaptureBinding.AtMostOneResult`, `CaptureWatch.LiveCaptureSpared`, `CaptureOrder.ServedInOrder`,
`CaptureLedger.LedgerIsExact`, `ScanRuns.StagesInOrder`, `ScanRuns.OverStays`, `ScanLife.RunningStage`,
`ScanRuns.OneResultPerStage`, `ScanProgress.LinearlyManyChanges`, `ScanProgress.WatchdogFinishes`,
`ScanStarts.NeverTooManySplitStarts`, `Ingest.Ingestor.Deactivate`, `Ingest.Ingestor.IngestAll` with
`IngestRuns.ObservedNeverLost`, `IngestRuns.AddressGoesExactly`, `RunLaws.RelationGoesExactly`,
`RunLaws.FindingGoesExactly`, `RunLaws.PartsGoAlong`, `Recording.RelatedExactly`, `DoubleMisses.OneMissPerRunExactly`,
`StageResults.IncompleteRunsVouchForNothing`, `Leases.MutualExclusion`, `Leases.RenewingExcludes`,
`Leases.GrantStands`, `Leases.TakenOverForGood`, `Audit.SharedDigestSharedHistory`, `Ports.NormalTextRoundTrip`,
`Ports.ParseExactly`, `Scope.NameMatches`, `Scope.HostDecisionIgnoresOrderExactly`, `Risk.ScoreIsTheWorstBelow`
and `Versions.EqualUpToTrailingZeros`.

`Prelude` and `Decimals` hold a few facts about finite sets, sequences and decimal text. `dafny verify dfyconfig.toml`
checks everything.

## Model

| member | source | states |
|---|---|---|
| `Captures.SlotOutlastsJob` | backend/app/screenshots/service.py:268-275 | A slot outlasts the latest start plus the hard limit of its job exactly when the job timeout of the policy that launched it is below the reserving policy's plus the minute left for the result |
| `Captures.WatchdogExactly` | backend/app/screenshots/service.py:283-295 | A watchdog pass fails a running row that no other transaction holds exactly when its slot has passed, or it is over ten minutes old and was never noted as dispatched, or it has no slot and is older than any; it changes nothing else |
| `Captures.FirstPerTenantOnce` | backend/app/screenshots/service.py:315-320 | The first serving of the queue takes at most one capture of each tenant |
| `Captures.FirstPerTenantAll` | backend/app/screenshots/service.py:315-320 | The first serving takes one capture of every tenant that waits |
| `Captures.ServingOrderRearranges` | backend/app/screenshots/service.py:315-321 | The serving order is the queue rearranged: every waiting capture once |
| `Captures.PickedFairly` | backend/app/screenshots/service.py:312-322 | As many captures are picked as there are free slots and candidates, each once, and no tenant is picked twice while another candidate's tenant gets nothing |
| `Captures.TakeSlotsAt` | backend/app/screenshots/service.py:322-325 | Each picked capture runs under a job number of its own with its slot held; all others keep their row |
| `CaptureOrder.FirstsAre` | backend/app/screenshots/service.py:316-320 | The first serving is of exactly those captures before which none of their tenant waits |
| `CaptureOrder.ServedInOrder` | backend/app/screenshots/service.py:315-322 | Told from places and tenants alone: nobody is served before one that is ahead, where the first of a tenant is ahead of all that are not, and otherwise the queue decides; as many are served as slots are free, if that many wait |
| `CaptureSafety.MayRunOccupies` | backend/app/screenshots/service.py:268-275 | The row of every job that may still run on a scanner is occupied |
| `CaptureSafety.ReportedJobIsOver` | backend/app/screenshots/service.py:461-485 | A slot freed by a result belongs to a job that can no longer run |
| `CaptureSafety.UnsentNeverRuns` | backend/app/screenshots/service.py:384-394 | A job the broker did not take never runs, so freeing its slot is safe |
| `CaptureSafety.ClaimFree` | workers/asm_sensors/worker.py:86-100 | A redelivered job never begins a second execution while the first may run |
| `CaptureSafety.DeliverExecutions` | workers/asm_sensors/runner.py:120-130 | Only a job within its start window begins to execute, at most once at a time |
| `CaptureSafety.ReserveCount` | backend/app/screenshots/service.py:298-328 | A reservation never takes more slots than are free, even with a stale clock |
| `CaptureSafety.StepKeeps` | backend/app/screenshots/service.py:210-522 | Every step of requests, cancels, dispatch, delivery, results and deletion of released captures keeps the safety invariant |
| `CaptureSafety.ExecutingWithinLimit` | backend/app/screenshots/service.py:278-280 | Executing jobs stand on distinct occupied rows, and those are within the limit |
| `CaptureSafety.AtMostMaxConcurrent` | backend/app/screenshots/service.py:252-394 | At every instant of every run at most max_concurrent capture jobs execute, whatever cancels, watchdog passes, late results, crashes and redeliveries occur |
| `CaptureDeletion.SlotOutlives` | backend/app/screenshots/service.py:252-264 | A slot whose time has not passed outlives every step but a result for its own job, a refused launch, an unsent job and a deletion; a cancel never frees it |
| `CaptureDeletion.DeleteReleases` | backend/app/screenshots/service.py:526-548 | Deleting a finished capture leaves the number of occupied slots alone exactly when its slot has passed |
| `CaptureDeletion.UnguardedDeletionBreaksLimit` | backend/app/screenshots/service.py:526-548 | For every policy that lets a capture run and every n, deleting cancelled captures whose jobs still execute leads to a state with n jobs executing |
| `CaptureBinding.FinishedStays` | backend/app/screenshots/service.py:461-485 | A capture that ended never becomes active again |
| `CaptureBinding.StepStructure` | backend/app/screenshots/service.py:298-394 | Rows, jobs, dispatchers and claims stay consistent through every step: one job per reservation, bound to its row |
| `CaptureBinding.AtMostOneResult` | backend/app/screenshots/service.py:417-485 | Over any run each capture takes at most one result, for the job, pool and tenant it was bound to, and none after it left running |
| `CaptureWatch.LiveRow` | backend/app/screenshots/service.py:268-275 | The slot of a job that may still run has not passed, and its row was started ten minutes before the job's last moment to start |
| `CaptureWatch.ReserveLeavesRunning` | backend/app/screenshots/service.py:298-328 | A reservation changes no running row but by its watchdog |
| `CaptureWatch.LiveCaptureSpared` | backend/app/screenshots/service.py:283-328 | After any disciplined run a reservation leaves a running capture whose job may still run untouched if it was noted as dispatched, is held by another transaction or may still start, and fails it otherwise |
| `CaptureWatch.UnnotedCaptureIsFailed` | backend/app/screenshots/service.py:283-295 | The condition is needed: for every policy that lets a capture run, a run from the start in which the dispatcher stops before its note, the job executes, and the next watchdog pass fails the capture |
| `CaptureLife.RequestExactly` | backend/app/screenshots/service.py:202-249 | A request makes a queued capture and counts it on its UTC day exactly when the feature is available and enabled, the visit authorized, the endpoint without an unfinished capture and the tenant below both limits; otherwise it changes nothing |
| `CaptureLife.CancelExactly` | backend/app/screenshots/service.py:252-264 | A cancel ends an unfinished capture, keeping its slot, and lowers the day's count exactly if it was queued and made the same UTC day |
| `CaptureLife.ReserveExactly` | backend/app/screenshots/service.py:298-328 | Row by row: a reservation fails what hangs and is not held, starts some queued captures that are not held, with a new job number and a slot of sixteen minutes plus the job's time, and leaves all else alone |
| `CaptureLife.ReserveStarts` | backend/app/screenshots/service.py:308-325 | It starts as many as slots are free if that many wait, none if no slot is free, from the oldest five times as many |
| `CaptureLife.StartedInOrder` | backend/app/screenshots/service.py:315-325 | Of two that wait the one ahead is started if the other is |
| `CaptureLife.LaunchExactly` | backend/app/screenshots/service.py:331-381 | A launch blocks a refused capture and frees its slot, else notes the pool and builds the job that may start ten minutes after the reservation and lasts three times the page timeout and a minute; it leaves what does not run alone |
| `CaptureLife.MarkExactly` | backend/app/screenshots/service.py:384-394 | A note counts only for the same job of a running capture |
| `CaptureLife.ResultExactly` | backend/app/screenshots/service.py:417-485 | A result ends a capture, and is counted as accepted, exactly when capture, tenant, adapter, job and pool agree and it runs; a refused one from its own job and pool only frees the slot; no other row changes |
| `CaptureLife.OthersLeaveRows` | backend/app/screenshots/service.py:526-548 | The other steps leave every row as it is, and only a finished capture is deleted |
| `CaptureLife.DeliverExactly` | workers/asm_sensors/worker.py:86-100 | A delivery starts a job exactly when no claim on it holds and its last moment to start has not passed |
| `CaptureLedger.RefundIsCovered` | backend/app/screenshots/service.py:202-264 | When a queued capture is cancelled on its day the day's counter is positive, so the clamp at zero never acts |
| `CaptureLedger.OtherStepsSameBooks` | backend/app/screenshots/service.py:298-394 | Dispatch, results, deletions and time never move a counter or make a capture active |
| `CaptureLedger.CounterMovesOnlyBy` | backend/app/screenshots/service.py:202-264 | Today's counter of a tenant moves only by an admitted request of that tenant or a cancel that gives back |
| `CaptureLedger.LedgerIsExact` | backend/app/screenshots/service.py:202-264 | In every run a tenant's counter is the captures created that day less those cancelled still queued that day, within the daily cap; active captures are within the queue cap, one per endpoint |
| `CaptureDesk.Desk.constructor` | backend/app/screenshots/service.py:111-118 | A new desk has no rows and no usage |
| `CaptureDesk.Desk.RequestCapture` | backend/app/screenshots/service.py:210-249 | Creates and charges a capture exactly when the limits admit it; otherwise returns the endpoint's active capture or refuses, changing nothing |
| `CaptureDesk.Desk.CancelCapture` | backend/app/screenshots/service.py:252-264 | Ends an active capture, keeping its slot, and gives the request back only if it was still queued the same day |
| `CaptureDesk.Desk.WatchdogPass` | backend/app/screenshots/service.py:283-295 | Fails exactly the unlocked captures that WatchdogExactly says hang, counts them, and keeps their slots |
| `CaptureDesk.Desk.SelectQueued` | backend/app/screenshots/service.py:312-314 | The oldest unlocked queued captures, in order, up to the limit |
| `CaptureDesk.Desk.PickFirstOfEach` | backend/app/screenshots/service.py:316-320 | The first capture of each tenant, in queue order |
| `CaptureDesk.Desk.PickOthers` | backend/app/screenshots/service.py:321-321 | The captures not picked first, in queue order |
| `CaptureDesk.Desk.TakeAll` | backend/app/screenshots/service.py:322-325 | Gives every picked capture its slot and job number |
| `CaptureDesk.Desk.Choose` | backend/app/screenshots/service.py:312-322 | Picks what PickedFairly is about, from the head of the queue |
| `CaptureDesk.Desk.Reserve` | backend/app/screenshots/service.py:298-328 | Watchdog, then as many queued captures as slots are free, exactly as the run model reserves |
| `CaptureDesk.ReservationIsStep` | backend/app/screenshots/service.py:298-327 | What the desk reserves, from any state with those rows, is exactly the reservation step of the run model |
| `CaptureDesk.Desk.LaunchCapture` | backend/app/screenshots/service.py:348-381 | Builds a job only for a running capture with a job number that is still authorized; a refusal ends it and frees the slot |
| `CaptureDesk.Desk.Mark` | backend/app/screenshots/service.py:384-394 | Notes a job the broker took; one it did not take ends the capture and frees its slot, only for the same job |
| `CaptureDesk.Desk.ReceiveResult` | backend/app/screenshots/service.py:461-485 | Takes a result exactly when it is bound to the running capture; frees the slot of its own job either way |
| `CaptureDesk.Desk.DeleteCapture` | backend/app/screenshots/service.py:539-548 | Deletes a capture exactly when it is not active |
| `CaptureDesk.Desk.DispatchOne` | backend/app/screenshots/jobs.py:14-47 | One reserved capture, whatever became of it meanwhile: nothing if it is gone or no longer running, else blocked, failed or running and dispatched |
| `CaptureDesk.Desk.DispatchAll` | backend/app/screenshots/jobs.py:14-47 | The same for every capture of a reservation, in order, and the number launched |
| `CaptureDesk.Desk.Dispatch` | backend/app/screenshots/jobs.py:14-47 | One pass leaves no reserved capture undecided: each runs and is dispatched, or ended and gave its slot back |
| `Scans.PrepareShape` | backend/app/scans/orchestrator.py:318-392 | The first pending stage that is authorized starts; the pending ones before it, none of them authorized, are skipped; the rest stay pending and the finished ones as they are; without an authorized one all pending ones are skipped |
| `Scans.AdvanceOk` | backend/app/workers/tasks.py:75-115 | Advancing a scan keeps its stages in order and its secret only while it is not over |
| `Scans.CancelOk` | backend/app/scans/orchestrator.py:182-199 | Cancelling leaves no unfinished stage and no secret |
| `Scans.VerdictMeans` | backend/app/scans/orchestrator.py:505-546 | An uncancelled scan completes exactly when every stage completed or was skipped, and fails exactly when some stage failed and none succeeded even in part |
| `ScanRuns.StagesInOrder` | backend/app/scans/orchestrator.py:318-392 | In every reachable state, under duplicated and reordered tasks, stages read finished, at most one running, then pending; a scan that is over has only finished stages and no secret |
| `ScanRuns.OverStays` | backend/app/scans/orchestrator.py:505-546 | A step leaves a scan that is over exactly as it was if and only if it does not record the dispatch of a job bound to one of its stages |
| `ScanRuns.OverStaysForever` | backend/app/scans/orchestrator.py:182-199 | Over any run a scan that is over changes in nothing but the dispatch note of a stage |
| `ScanRuns.CancelledScanStillNoted` | backend/app/workers/tasks.py:75-115 | Cancelling between the publication of a job and its note leaves a cancelled scan that changes once more |
| `ScanRuns.CancelledScanIsNoted` | backend/app/workers/tasks.py:95-115 | This is reached from the start, by creating, starting, advancing and cancelling one scan |
| `ScanRuns.SplitStartRevives` | backend/app/scans/orchestrator.py:282-310 | A start split from its read does what an atomic one does exactly when the scan can still start or already is what it writes; one cancelled in between is revived |
| `ScanRuns.OneResultPerStage` | backend/app/workers/results.py:57-83 | Over any run each stage takes at most one result, for the job, pool, tenant and engine bound at dispatch, and none after it left running |
| `ScanProgress.EveryChangeCounts` | backend/app/scans/orchestrator.py:334-392 | Whatever changes a scan lowers its weight |
| `ScanProgress.PipelineTaskDecreases` | backend/app/workers/tasks.py:75-131 | A pipeline task leaves a running scan unchanged, lowers twice its pending plus its running stages, or ends it with none left |
| `ScanProgress.LinearlyManyChanges` | backend/app/scans/orchestrator.py:434-546 | A scan of n stages changes at most 3n + 3 times whatever mix of results, failures, skips and retries follows |
| `ScanProgress.RunningGoesOn` | backend/app/scans/orchestrator.py:334-392 | Any step at all leaves a running scan running with no more work, or ends it |
| `ScanProgress.NudgeMoves` | backend/app/workers/tasks.py:151-175 | Whatever stage in flight is lost, and whatever is authorized, at each advance of a scan with none in flight, a nudge takes work off a running scan or ends it |
| `ScanProgress.NudgesTakeWork` | backend/app/workers/tasks.py:151-175 | Over any run, however the nudges mix with other steps, each nudge costs a scan that is still running one unit of work |
| `ScanProgress.NudgeExists` | backend/app/workers/tasks.py:151-175 | A running scan can always be nudged, with any answer about scope and pool |
| `ScanProgress.WatchdogFinishes` | backend/app/workers/tasks.py:151-175 | No scan gets stuck: in any run whatever, a scan nudged more often than it has work (twice its pending stages and one for the stage in flight) is over |
| `ScanProgress.NeverTooManyScans` | backend/app/scans/orchestrator.py:282-310 | No interleaving of starts, finishes and cancels exceeds the tenant's or the global limit of running scans |
| `ScanStarts.NeverTooManySplitStarts` | backend/app/scans/orchestrator.py:282-310 | Nor does one in which every start reads the scan and the counts first and writes later, with all other tasks, but no other start, in between |
| `ScanRecord.Record.constructor` | backend/app/scans/orchestrator.py:92-180 | A new scan is pending with its stages and secret |
| `ScanRecord.Record.Cancel` | backend/app/scans/orchestrator.py:182-199 | Cancels every unfinished stage and returns exactly the jobs in flight |
| `ScanRecord.Record.Start` | backend/app/scans/orchestrator.py:282-310 | Starts a waiting scan exactly when its tenant is active and a place is free |
| `ScanRecord.Record.PrepareNext` | backend/app/scans/orchestrator.py:318-392 | Starts the least pending stage that is authorized, and returns none exactly when no pending one is; those before it are skipped |
| `ScanRecord.Record.FinalizeScan` | backend/app/scans/orchestrator.py:505-546 | Ends a scan with the verdict of its stages and drops its secret |
| `ScanRecord.Record.AdvanceTask` | backend/app/workers/tasks.py:75-115 | One advance: cancel if inactive, else the next stage, else the end |
| `ScanRecord.Record.MarkDispatched` | backend/app/workers/tasks.py:95-115 | Notes that the job of a stage reached the broker |
| `ScanRecord.Record.Fail` | backend/app/scans/orchestrator.py:496-502 | Fails, or skips if optional, only a running stage |
| `ScanRecord.Record.SubmitResult` | backend/app/workers/results.py:57-83 | Takes a result exactly when it is bound to a running stage, which is finished then |
| `ScanLife.PendingStage` | backend/app/scans/orchestrator.py:318-392 | A pending stage starts exactly when the scan looks for the next, it is authorized and no earlier pending one is; it is skipped exactly when it then is not authorized; it is cancelled exactly with its scan; else it stays |
| `ScanLife.RunningStage` | backend/app/scans/orchestrator.py:434-502 | A running stage is completed, partial, failed or, if optional, skipped by exactly a result that agrees on scan, stage, tenant, job, pool and engine, or by the loss of its job; it is cancelled exactly with its scan; else it runs on |
| `ScanLife.FinishedStage` | backend/app/scans/orchestrator.py:434-502 | A finished stage changes in nothing but a late dispatch note |
| `ScanLife.ScanStatusMoves` | backend/app/scans/orchestrator.py:282-310 | A waiting scan starts exactly when its tenant is active and below its plan's limit, or two, and the platform below its own; a running one ends exactly when cancelled or when it looks for a next stage and no pending one is authorized |
| `ScanLife.CreateExactly` | backend/app/scans/orchestrator.py:92-180 | A new scan and its stages wait, in the order asked for, and no other scan changes |
| `ScanLife.AcceptedExactly` | backend/app/workers/results.py:57-83 | A result is accepted exactly when it answers a stage |
| `Cascade.FallsDetermined` | backend/app/assets/ingest.py:441-467 | What falls with an asset is determined by the graph, whatever order the children are visited in |
| `Cascade.ObservedStay` | backend/app/assets/ingest.py:455-467 | Nothing the run observed falls with an asset it did not observe |
| `Cascade.OwnedChildrenAccountedFor` | backend/app/assets/ingest.py:455-478 | Every relation to an owned, then-active child is ended, and the child fell, was observed, or is an endpoint another parent serves |
| `Ingest.Ingestor.Deactivate` | backend/app/assets/ingest.py:441-467 | Ends on any graph; exactly the assets that fall go inactive, exactly their open findings are resolved, relations only end, and no live ownership leads from what fell to what did not |
| `Ingest.Ingestor.DeactivateOwned` | backend/app/assets/ingest.py:455-467 | All types of owned children are handled |
| `Ingest.Ingestor.DeactivateChildren` | backend/app/assets/ingest.py:456-467 | Every row of one type is ended and its child falls unless excused |
| `Ingest.Ingestor.DeactivateRows` | backend/app/assets/ingest.py:461-467 | The rows found, one by one: all are ended, and no row of another type changes |
| `Ingest.Ingestor.DeactivateChild` | backend/app/assets/ingest.py:461-467 | One row is ended; its child falls unless observed or served by another parent |
| `Ingest.Ingestor.CountMiss` | backend/app/assets/ingest.py:480-487 | A miss counts only for an active asset the run did not observe, which falls exactly when its counter reaches the threshold |
| `CoverageRules.GoesAtThreshold` | backend/app/assets/ingest.py:480-487 | An active asset goes by a miss exactly when that miss makes its threshold |
| `Ingest.Ingestor.CoverLiveness` | backend/app/assets/ingest.py:571-574 | Whatever is still active was missed once for each time the lookup returned it and not at all if observed; relations end and findings are resolved only with what went |
| `Ingest.Ingestor.MissListed` | backend/app/assets/ingest.py:572-574 | One listed asset is missed if it is known, active and not observed |
| `Ingest.Ingestor.CoverRow` | backend/app/assets/ingest.py:547-569 | One covered relation is missed, and its target if it counts misses |
| `Ingest.Ingestor.MissRelation` | backend/app/assets/ingest.py:556-567 | The relation's counter goes up and it ends at the threshold; if it was the last name of an unobserved, derived address that hosts nothing, the address is inactive afterwards, and no such address that lost its last name in the run stays |
| `Ingest.Ingestor.BumpRelation` | backend/app/assets/ingest.py:556-558 | The relation's counter goes up by one and it ends at the threshold |
| `Ingest.Ingestor.MissTarget` | backend/app/assets/ingest.py:568-569 | The relation's target is missed once more |
| `Ingest.Ingestor.LeaveSurface` | backend/app/assets/ingest.py:562-567 | An address without a name left goes, with what depends on it |
| `Ingest.Ingestor.CoverChunk` | backend/app/assets/ingest.py:541-569 | Covered relations are each missed once, and what is still active once for every covered relation leading to it |
| `Ingest.Ingestor.CoverRows` | backend/app/assets/ingest.py:547-569 | The same, for the rows found |
| `Ingest.Ingestor.CoverRelations` | backend/app/assets/ingest.py:528-569 | Every chunk of parents takes exactly that effect, on what the ones before it left |
| `Ingest.Ingestor.CoverFindings` | backend/app/assets/ingest.py:576-594 | Only open, unobserved, matching findings of the run's source are missed, and no asset changes |
| `Ingest.Ingestor.CoverOne` | backend/app/assets/ingest.py:660-666 | One item takes exactly its effect and keeps the coverage invariant |
| `Ingest.Ingestor.Cover` | backend/app/assets/ingest.py:660-666 | All items in turn, each with exactly its effect; no observed asset changes, and what goes has a cause |
| `DoubleMisses.MissedTwiceInOneRun` | backend/app/assets/ingest.py:528-569 | A result that vouches for a name and for an address, both recorded as serving one endpoint, in two items, and that saw nothing, counts two misses in one run, where the settings speak of runs; a worker may submit it, no shipped adapter does |
| `DoubleMisses.TakeInBoth` | workers/asm_sensors/observations.py:63 | An endpoint may be reported as served by a name and by an address: an empty inventory that takes in such a result and then an empty one stands at two misses |
| `DoubleMisses.OneMissPerRunExactly` | backend/app/assets/ingest.py:528-574 | Over all coverage of a run, liveness and relations, an asset's counter rises by at most one if at most one miss is due on the tables as recorded; exactly then if it stays active and no covered parent of it goes |
| `Ingest.Ingestor.ApplyAsset` | backend/app/assets/ingest.py:269-331 | A new asset is active; a live observation refreshes, resets and reactivates; a historical one only adds knowledge; a mention changes no liveness |
| `Ingest.Ingestor.ApplySightings` | backend/app/assets/ingest.py:637-639 | All sightings in turn; the observed keys are exactly those observed with a scope status |
| `IngestRules.SightAllMeans` | backend/app/assets/ingest.py:293-331 | Sightings lose nothing, live ones prove presence, historical ones never touch liveness |
| `Ingest.Ingestor.UpsertRelations` | backend/app/assets/ingest.py:343-405 | Exactly the reported relations between known assets are recorded, in turn, and all are live afterwards |
| `Ingest.Ingestor.UpsertIssues` | backend/app/assets/ingest.py:644-658 | Exactly the findings of known assets in scope are recorded, in turn |
| `Ingest.Ingestor.constructor` | backend/app/assets/ingest.py:109-120 | An empty inventory with an empty book of findings |
| `Ingest.Ingestor.IngestRun` | backend/app/assets/ingest.py:597-677 | One run under the thresholds of its time: what it reports is recorded, each coverage item in turn takes exactly its effect, the findings keep their lifecycle, and under unchanged thresholds no active asset is at its own |
| `Ingest.Ingestor.IngestNext` | backend/app/assets/ingest.py:597-677 | One more run extends the history of runs |
| `Ingest.Ingestor.IngestEach` | backend/app/assets/ingest.py:597-677 | Batches taken in one after the other are a history of runs, those of the batches in order |
| `Ingest.Ingestor.IngestAll` | backend/app/assets/ingest.py:597-677 | After any sequence of runs, each with its own thresholds, the counter of every active asset is exactly the misses those runs counted since it was last seen live or discovered, at most that for the others, and the findings keep their lifecycle |
| `IngestRules.SightedCounter` | backend/app/assets/ingest.py:293-331 | Recording a report resets exactly the counters of new and live-observed assets |
| `IngestRuns.OneRunCounts` | backend/app/assets/ingest.py:480-574 | One run resets a counter exactly if it discovers the asset or sees it live, and adds exactly one for each listing and covered relation not observed; nothing else brings an asset back |
| `IngestRuns.CountersAreExact` | backend/app/assets/ingest.py:480-574 | Over any history of runs the counter is that function of the runs |
| `IngestRuns.GoesExactly` | backend/app/assets/ingest.py:480-487 | An asset active when a run's coverage begins, that follows no owner and does not leave the surface, is inactive after the run exactly when the run missed it and its misses make the threshold, however high its counter stood |
| `IngestRuns.AddressGoesExactly` | backend/app/assets/ingest.py:556-567 | An unobserved, derived address that hosts nothing is inactive after a run exactly when its misses make the threshold or the last name that pointed at it ended in the run |
| `RunLaws.RelationGoesExactly` | backend/app/assets/ingest.py:528-558 | A relation live when the coverage begins, and not taken along by its source, ends exactly when the run looked along it (source, kind, type and port in the swept set, the content network's own for its addresses) without reporting it, as often as makes the threshold |
| `RunLaws.FindingGoesExactly` | backend/app/assets/ingest.py:576-594 | A finding open when the coverage begins is resolved exactly when its asset goes, or when the run is of its source, looked for it without reporting it, and so often that this makes the threshold |
| `RunLaws.PartsGoAlong` | backend/app/assets/ingest.py:441-467 | An unobserved port, service or endpoint whose address, port or host goes in a run goes with it, unless another host served it when the coverage began or its relation ended by its own misses |
| `RunLaws.PartMissesMeans` | backend/app/assets/ingest.py:528-574 | How often a part of a run misses an asset: once for each time it is listed; a port, service or endpoint once for each live relation to it that the part looked along and the run did not report; never if observed |
| `IngestRuns.LoweredThreshold` | backend/app/assets/ingest.py:480-487 | An active asset already at its threshold, as after the threshold was lowered, goes at its next counted miss and is left as it is by a run that does not miss it, unless it follows an owner or leaves the surface |
| `IngestRuns.RunKeepsBelow` | backend/app/assets/ingest.py:480-487 | Under unchanged thresholds no active asset is at its own after a run |
| `IngestRuns.RunKeepsBook` | backend/app/assets/ingest.py:644-666 | A run keeps the lifecycle of every finding |
| `IngestRuns.HistoryKeepsBook` | backend/app/assets/ingest.py:644-666 | So does any sequence of runs |
| `IngestRuns.HistoryWithoutCoverage` | backend/app/assets/ingest.py:660-666 | Any sequence of runs without coverage of assets or relations loses nothing, and historical ones leave all liveness alone |
| `IngestRuns.ObservedNeverLost` | backend/app/assets/ingest.py:441-487 | No observed asset goes from active to inactive in its run, live-observed ones end present with a clean counter, nothing else comes back, and what goes was missed in this run and often enough, belonged to something gone, or is an address that a name pointed at when the coverage began and none does any more |
| `IngestRuns.WithoutCoverageNothingIsLost` | backend/app/assets/ingest.py:660-666 | Without coverage of assets or relations nothing goes inactive, no miss is counted and only the run's own findings are resolved; a historical run touches no known asset's status, last_seen or missed_count |
| `IngestRules.RelateAllMeans` | backend/app/assets/ingest.py:343-405 | Reported relations are live afterwards and no relation is counted as missed |
| `IngestRules.FileAllMeans` | backend/app/assets/ingest.py:644-658 | Reporting resolves nothing and what is reported is on file |
| `Recording.Thresholds` | backend/app/tenants/settings.py:96-98 | A threshold is the setting for the type, else the fallback, and never below one |
| `Recording.SightedLife` | backend/app/assets/ingest.py:269-331 | After a run's sightings exactly the known and the mentioned assets are known; a new one is active and fresh, one observed live is active and fresh again, and the life of every other is untouched |
| `Recording.LastMentionDecides` | backend/app/assets/ingest.py:269-331 | The last mention of an asset decides its scope (a name takes it, a derived address does not fall out, all else only rises) and, if it was observed, its port and content-network mark |
| `Recording.ScopeNeverFalls` | backend/app/assets/ingest.py:325-326 | Over all sightings of a run the scope of anything but a name or address is at least what it was and what any mention says |
| `Recording.RelatedExactly` | backend/app/assets/ingest.py:343-405 | After a run's relations exactly the known ones and the reported ones between two known, different assets are known; a reported one is live with a clean counter unless historical; another one changes only if it is a certificate of a source for which a new one is reported, and then it ends |
| `Recording.FiledExactly` | backend/app/findings/service.py:78-137 | After a run's issues exactly the known findings and those reported on known assets in scope are on file; a reported one has the last severity, a clean counter, one more occurrence per report, is unverified only while all reports are, and comes back if remediated; another is untouched |
| `StageResults.Report` | workers/asm_sensors/base.py:189-209 | A run is completed exactly when it has no error, no failed process and nothing cut off, failed when it is not and saw nothing, and keeps its coverage only when completed |
| `StageResults.CompleteStage` | backend/app/scans/orchestrator.py:448-480 | A failed result changes nothing; otherwise the result is taken in, its coverage only if completed, and then what the rules say unless it is historical |
| `StageResults.IncompleteRunsVouchForNothing` | backend/app/scans/orchestrator.py:457-480 | A result not marked completed makes no asset inactive, counts no miss and resolves no finding but those of the platform's own rules |
| `StageResults.ObservedAreThere` | backend/app/scans/orchestrator.py:463-480 | What a live result observed is present after its stage, whatever the rules say |
| `Findings.EventTransition` | backend/app/findings/service.py:198-238 | What one detection, miss, loss of the asset, analyst update or expiry may do to a finding |
| `Findings.EveryLife` | backend/app/findings/service.py:88-238 | In every life resolved_at is set exactly while remediated and the false-positive mark exactly in that status, verified stays verified, and scans never leave accepted risk or false positive |
| `Findings.AnalystMoves` | backend/app/findings/service.py:198-238 | An analyst's change is made exactly when the table of moves, written out, has it and, for accepted risk, with the right and a reason; it sets the status and what belongs to it and leaves the rest |
| `Findings.RefusedWhy` | backend/app/findings/service.py:211-238 | An analyst's change is refused first for the workflow, then for the right, then for the reason |
| `Findings.FamilyMeans` | backend/app/findings/service.py:148-150 | A rule is of a family exactly when it is the family's name, or that and a colon and more |
| `Findings.ScansMove` | backend/app/findings/service.py:114-194 | An open finding ends exactly at its last allowed miss or with its asset, a remediated one comes back exactly by being seen again, and an accepted risk exactly after its date |
| `Findings.DetectedLife` | backend/app/findings/service.py:88-112 | This holds of every finding from its first detection on |
| `Findings.ResolvedExactly` | backend/app/findings/service.py:140-177 | A covered run counts a miss for exactly the open, unobserved findings of its source with a covered asset, severity, family and tags and no excluded tag, resolves those at the threshold, and changes nothing else |
| `Findings.ScansAreEvents` | backend/app/findings/service.py:88-194 | Every change a scan makes to the table is, row by row, one event in a life |
| `Findings.BookKept` | backend/app/findings/service.py:88-194 | The table's rows keep the lifecycle invariant |
| `Findings.Ledger.constructor` | backend/app/findings/service.py:78-89 | An empty table |
| `Findings.Ledger.UpsertObservation` | backend/app/findings/service.py:78-137 | Creates or refreshes the finding, reopening a remediated one; reports new verified and returned ones |
| `Findings.Ledger.ResolveCovered` | backend/app/findings/service.py:153-177 | Counts the miss of every covered unobserved open finding and returns exactly those resolved |
| `Findings.Ledger.CountMiss` | backend/app/findings/service.py:166-171 | One more miss; resolved at the threshold |
| `Findings.Ledger.ResolveForInactiveAsset` | backend/app/findings/service.py:180-194 | Resolves exactly the asset's open findings; none is open afterwards |
| `Findings.Ledger.UpdateFinding` | backend/app/findings/service.py:211-238 | Applies the analyst's status change or says why not, changing nothing then |
| `Leases.LocalCoordinator.constructor` | workers/asm_sensors/coordination.py:109-113 | No leases and no claims |
| `Leases.LocalCoordinator.TryClaim` | workers/asm_sensors/coordination.py:115-121 | True exactly for the first writer within the time to live |
| `Leases.LocalCoordinator.TryAcquire` | workers/asm_sensors/coordination.py:123-130 | True exactly when no unexpired lease is held |
| `Leases.LocalCoordinator.TryRenew` | workers/asm_sensors/coordination.py:132-138 | True exactly for the token that holds the lease, expired or not; GrantHolds says until when it then stands |
| `Leases.LocalCoordinator.GiveUp` | workers/asm_sensors/coordination.py:140-144 | Removes only the token's own lease |
| `Leases.FirstWriterWins` | workers/asm_sensors/coordination.py:115-121 | A claimed key stays claimed for its whole time to live whatever else is attempted |
| `Leases.ClaimHolds` | workers/asm_sensors/coordination.py:115-121 | A granted claim can be had again exactly once its time to live is over, a refused one changes nothing, and no other key is touched |
| `Leases.MutualExclusion` | workers/asm_sensors/coordination.py:54-102 | If time never reaches the expiry of a running body's lease, no two bodies of one lease ever overlap |
| `Leases.LateRenewalOverlaps` | workers/asm_sensors/coordination.py:54-102 | Without that two bodies of one lease can run at once, for every time to live |
| `Leases.TakenOverForGood` | workers/asm_sensors/coordination.py:77-102 | With no timing assumption a holder whose lease was taken over never gets it back, learns it at its next renewal, and neither that nor its release touches the new lease |
| `Leases.NobodyElsesLease` | workers/asm_sensors/coordination.py:123-144 | An unexpired lease changes only by its own holder's renewal or release |
| `Leases.GrantHolds` | workers/asm_sensors/coordination.py:123-138 | After a granted acquisition or the holder's renewal the lease is taken exactly until that moment plus the time to live, and no other lease changes; what is not granted changes nothing |
| `Leases.ReleaseFrees` | workers/asm_sensors/coordination.py:140-144 | The holder's release frees its lease at once and changes no other; anyone else's changes nothing |
| `Leases.RenewingExcludes` | workers/asm_sensors/coordination.py:54-144 | If every running body renews, or was granted its lease, less than the time to live before, no two bodies of one lease ever overlap |
| `Leases.GrantStands` | workers/asm_sensors/coordination.py:54-144 | Once a caller was granted or renewed its lease, over any run in which it does not finish, nobody else's attempt succeeds before the time to live has passed |
| `Audit.EveryRecordedChainIsIntact` | backend/app/services/audit.py:109-156 | Whatever is recorded, for whichever tenants, every chain passes |
| `Audit.RecordKeeps` | backend/app/services/audit.py:109-156 | Recording keeps every tenant's chain intact |
| `Audit.DigestedInjective` | backend/app/services/audit.py:88-106 | The digested text determines the previous digest and the payload |
| `Audit.SharedDigestSharedHistory` | backend/app/services/audit.py:168-197 | Two intact chains with a common digest agree on every hashed field up to it, or two different digested texts collide |
| `Audit.AnchoredHistoryIsUnique` | backend/app/services/audit.py:168-197 | With the last digest anchored, the anchored history is the only one that passes, up to a collision |
| `Audit.TruncationGoesUnnoticed` | backend/app/services/audit.py:176-177 | Every beginning of an intact chain is intact, so a cut-off tail goes unnoticed |
| `Audit.EditNoticedExactly` | backend/app/services/audit.py:88-106 | Editing an entry in place goes unnoticed exactly when its payload stays the same, so that only the user agent, the request id or the row id change, or when two different digested texts collide |
| `Audit.Table.constructor` | backend/app/services/audit.py:109-122 | An empty log |
| `Audit.Table.Record` | backend/app/services/audit.py:126-156 | Appends the next entry of the tenant's chain and keeps every chain intact |
| `Audit.Table.CheckChain` | backend/app/services/audit.py:168-197 | Accepts exactly the chains with contiguous numbers, right links and right digests; otherwise names the first bad entry and the reason |
| `Ports.CompiledMeans` | workers/asm_sensors/ports.py:54-62 | Compiling yields sorted ranges with gaps that cover exactly the listed ports |
| `Ports.NormalFormIsUnique` | workers/asm_sensors/ports.py:54-62 | Two such forms that cover the same ports are equal |
| `Ports.CountIsCardinality` | workers/asm_sensors/ports.py:73-74 | The sum over the ranges is the number of ports, each counted once |
| `Ports.NormalTextRoundTrip` | workers/asm_sensors/ports.py:43-51 | The printed normal form reads back as the same ranges, and compiles to itself |
| `Ports.SameTextSamePorts` | workers/asm_sensors/ports.py:69-70 | Two specifications have the same normal text exactly when they mean the same ports |
| `Ports.ReadRanges` | workers/asm_sensors/ports.py:33-51 | The parts of a valid specification; nothing for an invalid one |
| `Ports.ParseExactly` | workers/asm_sensors/ports.py:33-51 | A text is a valid specification, of these ranges, exactly when without spaces it is their parts joined by commas, each a number of at most five digits or two with a dash, from 1 to 65535 and in order |
| `Ports.SpacesIgnored` | workers/asm_sensors/ports.py:36-36 | Spaces do not matter, wherever they stand |
| `Ports.Compile` | workers/asm_sensors/ports.py:54-62 | The compiled form, or nothing exactly for an invalid specification |
| `Ports.PortInSpec` | workers/asm_sensors/ports.py:65-66 | Membership in the listed parts |
| `Ports.CountPorts` | workers/asm_sensors/ports.py:73-74 | The cardinality of the listed set of ports |
| `Ports.Normalize` | workers/asm_sensors/ports.py:69-70 | A valid specification of the same ports that is its own normal form |
| `Scope.OverlapsMeans` | backend/app/scope/checker.py:172-174 | Networks overlap exactly when they share an address |
| `Scope.FirstHit` | backend/app/scope/checker.py:85-101 | The first hit is a matching rule and none that matches is more specific; there is none exactly when no rule matches |
| `Scope.CollectHits` | backend/app/scope/checker.py:85-92 | Gathers the rules that cover the host, in the sense of NameMatches and AddressMatches, most specific first |
| `Scope.NameMatches` | backend/app/scope/checker.py:85-92 | A rule covers a name exactly when it is for a domain and the name is that domain or, if the rule includes subdomains, the name's last labels are the domain's |
| `Scope.AddressMatches` | backend/app/scope/checker.py:94-101 | A rule covers an address exactly when it is for a network of the same version and the address agrees with it in the bits of the prefix |
| `Scope.NetworkSizes` | backend/app/scope/checker.py:75-79 | How many addresses a network holds: 256 in a /24 and 2^32 in all of version 4, 2^64 in a /64 of version 6, one in a host's own |
| `Scope.SubnetMeans` | backend/app/scope/checker.py:169-178 | One network is inside another exactly when all its addresses are |
| `Scope.MoreSpecificIsInside` | backend/app/scope/checker.py:85-101 | Of two entries that cover one host the more specific is the other or lies inside it: below its domain, or a subnet of it |
| `Scope.AllowedNameIsBelowEntry` | backend/app/scope/checker.py:127-157 | An allowed name is the domain of a permitting entry or below it, label by label, and no excluded domain is it or, with its subdomains, above it |
| `Scope.OneEntryDecides` | backend/app/scope/checker.py:127-157 | With one entry that covers a host, it is allowed exactly when the entry is no exclusion and, if scanned actively, allows that, is verified if that is required, and an address is public |
| `Scope.OneEntryDecidesNetwork` | backend/app/scope/checker.py:127-167 | The same for a network inside the entry |
| `Scope.LookalikeIsRefused` | backend/app/scope/checker.py:85-92 | A name that ends in the letters of a domain in the middle of a label is not covered by it and is refused |
| `Scope.NotExample` | backend/app/scope/checker.py:85-92 | With the entry example.com and its subdomains, notexample.com is refused |
| `Scope.AllowedHostIsAuthorized` | backend/app/scope/checker.py:119-167 | An allowed host is not excluded, is covered by its most specific entry or an allowed parent, and is public if scanned actively |
| `Scope.HostAllowedExactly` | backend/app/scope/checker.py:127-167 | Without doubles for it a host is allowed exactly when no exclusion covers it and its most specific entry permits it or, in no entry, derived scanning is on and a parent is allowed; public if an address scanned actively |
| `Scope.ExcludedHostDecision` | backend/app/scope/checker.py:133-143 | A host is refused as excluded exactly when an exclusion covers it |
| `Scope.CoveredHostDecision` | backend/app/scope/checker.py:119-167 | The whole decision on a host that no exclusion and some entry covers: in scope by its most specific entry, and allowed, or refused for active scanning, for verification or as not public, in that order |
| `Scope.UncoveredHostDecision` | backend/app/scope/checker.py:136-157 | The whole decision on a host no rule covers: out of scope, unless it is an address; then the first parent that may itself be scanned decides, and it is derived from that one |
| `Scope.FirstListedDecides` | backend/app/scope/checker.py:175-178 | The deciding entry of a network is the first listed one that contains it |
| `Scope.PermittedNetworkIsAllowed` | backend/app/scope/checker.py:169-178 | A network with no excluded address, inside an entry and permitted by all it is inside of, is allowed |
| `Scope.AllowedNetworkIsAuthorized` | backend/app/scope/checker.py:169-178 | Every address of an allowed network is in one permitting inclusion entry and in no exclusion entry |
| `Scope.ExcludedNetworkExactly` | backend/app/scope/checker.py:172-174 | A network is refused as excluded exactly when an address of it is in an exclusion entry |
| `Scope.HostDecisionIgnoresOrder` | backend/app/scope/checker.py:127-157 | Without two rules of one flag for the same domain or network among those that match it or its parents, a host gets the same decision for every order of the rules |
| `Scope.HostDecisionIgnoresOrderExactly` | backend/app/scope/checker.py:85-101 | For a host in some entry and not excluded the verdict is the same for every order exactly when its most specific entries permit alike, or it is an address that may not be scanned anyway |
| `Scope.OtherHostsIgnoreOrder` | backend/app/scope/checker.py:127-157 | On entries the table can hold, an excluded host, a name, and an address in no entry reached through names get one decision for every order |
| `Scope.DoublesDependOnOrder` | backend/app/scope/checker.py:94-101 | An address that is an entry itself and a network of its own is decided by the first one listed |
| `Scope.NetworkOrderMatters` | backend/app/scope/checker.py:175-178 | In a network that permits active scanning and a smaller one that does not, the first one listed decides |
| `Scope.NetworkDecisionIgnoresOrderExactly` | backend/app/scope/checker.py:175-178 | For a network that is not excluded the verdict is the same for every order exactly when all entries that contain it permit alike, or it may not be scanned anyway |
| `Risk.FindingsCount` | backend/app/risk/engine.py:147-173 | No asset scores below its worst open finding, and the others add at most fifteen points |
| `Risk.OwnMeans` | backend/app/risk/engine.py:147-165 | With the findings sorted worst first, an asset's worth is the first plus fifteen hundredths of the sum of the others but at most fifteen; without any, its exposure but at most forty-five |
| `Risk.ScoreMeans` | backend/app/risk/engine.py:172-172 | A score is the nearest whole number within 0 and 100, of two equally near the even one |
| `Risk.EdgeMeans` | backend/app/risk/service.py:19-25 | Scores roll up along exactly the active relations from a host or address to its endpoint, an address to its port, a port to its service and a name to its address |
| `Risk.SchemaDescends` | backend/app/risk/service.py:19-25 | Every roll-up relation the schema allows leads to an earlier place in the order |
| `Risk.NodeScoreMeans` | backend/app/risk/engine.py:167-173 | A score is the asset's own worth or the largest child score, whichever is more |
| `Risk.Organization.constructor` | backend/app/risk/service.py:28-33 | All scores start at zero |
| `Risk.Organization.Recompute` | backend/app/risk/service.py:55-80 | One pass scores every asset from the children scored before it |
| `Risk.ScoresInRange` | backend/app/risk/engine.py:172-173 | Scores are within 0 to 100, zero for inactive assets, and never below the asset's own worth |
| `Risk.ParentInherits` | backend/app/risk/service.py:58-65 | A parent was scored after its child and scores at least as much |
| `Risk.AncestorsDominate` | backend/app/risk/service.py:49-80 | Along any chain of active, schema-respecting relations an ancestor scores at least as much as each descendant |
| `Risk.ScoreIsTheWorstBelow` | backend/app/risk/service.py:49-80 | Every score is the own worth of some active asset at the end of such a chain |
| `Risk.OnePassSuffices` | backend/app/risk/service.py:55-80 | Any two passes, in any order within a type, give the same scores |
| `Versions.Parse` | backend/app/threats/versions.py:40-48 | A parsed version has one to twelve tokens and begins with a number |
| `Versions.DottedReads` | backend/app/threats/versions.py:40-48 | A dotted text of at most 64 characters is read as its first twelve numbers, with or without a leading v |
| `Versions.SpelledReads` | backend/app/threats/versions.py:27-48 | Any runs of digits and letters, however separated, are read back as they are |
| `Versions.SpellingIgnored` | backend/app/threats/versions.py:40-44 | Blanks around a version and the case of its letters do not matter |
| `Versions.FirstDifferenceDecides` | backend/app/threats/versions.py:50-62 | The first position that differs decides: numbers by value, words by the alphabet, a word below a number, a missing position as zero |
| `Versions.Antisymmetric` | backend/app/threats/versions.py:50-62 | Swapping the versions negates the comparison |
| `Versions.Transitive` | backend/app/threats/versions.py:50-62 | The order is transitive, strictly so if either step is strict |
| `Versions.EqualUpToTrailingZeros` | backend/app/threats/versions.py:50-62 | Versions compare equal exactly when they agree up to trailing zeros |
| `Versions.RangesAreConvex` | backend/app/threats/versions.py:74-80 | An affected range has no holes |
| `Versions.InRangeMeans` | backend/app/threats/versions.py:74-80 | A version is in a range exactly when it is not before what introduced it, before what fixed it and not after the last affected |
| `Versions.RangeEnds` | backend/app/threats/versions.py:74-80 | The introducing and the last affected version are in their range, the fixing one never is |
| `Versions.EqualVersionsShareRanges` | backend/app/threats/versions.py:74-80 | Versions that compare equal are in the same ranges |
| `Matching.MatchOne` | backend/app/threats/matching.py:82-106 | One observation makes a verdict, a stronger one, or one more piece of evidence |
| `Matching.Match` | backend/app/threats/matching.py:82-106 | Exactly the assets with a matching observation get a verdict: the strongest supported, with one to five different pieces of evidence, all there are if fewer than five, of which the first carries it |
| `Matching.VerdictsIgnoreOrder` | backend/app/threats/matching.py:82-106 | The verdicts are the same for every order of the observations |
| `Matching.VerdictExactly` | backend/app/threats/matching.py:64-79 | An asset is affected exactly when a listed product was seen on it in every version or at a version inside a range, and cleared exactly when every listed product was seen at a version outside all ranges |
| `Matching.SaysExactly` | backend/app/threats/matching.py:64-91 | An observation counts exactly if some product lists its name, for the first one that does, with that product's name and vendor; it hits without ranges or at a version inside one, and clears at a version outside all |

## Left out

- Time is one clock shared by all processes, and a policy does not change during a run; `Captures.SlotOutlastsJob` says what a changed timeout would do.
- A failed publication is taken to mean that the broker has not taken the job; the model has no job that is both reported unsent and delivered.
- Identifiers and job ids are counters that are never reused; tokens of leases are fresh; fingerprints stand for the fields they are made of.
- Each locked database transaction is one step; SQL, row-level security, migrations, JSON columns and sessions are not modelled.
- Captures: image checks, storage quota, object deletion, the weekly schedule and inline mode; whether an endpoint is authorized is an input.
- CaptureSafety.AtMostMaxConcurrent: holds for runs whose deletions remove only captures whose slot has passed, because UnguardedDeletionBreaksLimit shows that no limit holds otherwise, and for results that scanners report honestly.
- Scans: which targets a stage gets, scope decisions per stage, sign-in secrets' contents, statistics and messages; whether a stage has an authorized target is an input.
- Scans: but for `ScanStarts.NeverTooManySplitStarts` a start is one step, because `ScanRuns.SplitStartRevives` shows what a start split from its read can do to a scan; the limits hold either way.
- CaptureDesk.Desk.Dispatch: no other transaction comes between the reservation and the marks; the run model has them all, and `DispatchOne` and `DispatchAll` begin on any rows.
- Ingest: scope status propagation and normalization (the status of each key is an input), attributes other than the content-network mark and the port, observation rows, events, and ageing out of assets not seen for a long time.
- Ingest: rows are visited in any order; coverage is taken as what its lookups return, by value or address block, each asset once per chunk of a thousand values.
- DoubleMisses: that an endpoint has two serving parents is something a result may say; the shipped web probe names one parent for each endpoint.
- DoubleMisses.OneMissPerRunExactly: that more than one miss due means more than one counted is stated for an asset still active after the run whose covered parents stay, because an asset that goes, or a relation whose parent goes, stops counting half-way.
- Historical sources may bring back a relation; the historical results are about assets only.
- Findings: notes, assignment, tags and comments; descriptive fields copied on every detection; `Ledger` is the service's own form, while `Ingestor` applies the same functions (`Upsert`, `ResolveForAssets`, `ResolveUnobserved`) to its own table; threat-intelligence enrichment.
- Leases: the polling loop and its deadline are a step of their own; a cancelled body is taken to stop at once; the model is of the local coordinator. The broker-backed one differs in its renewal, which fails once the key has expired where the local one revives the lease, so `LateRenewalOverlaps` is about the local one only.
- Audit: the digest is any function into 64-character texts and the canonical text any injective encoding of the payload as an object; collisions are part of the statement, not excluded.
- Ports: digits are 0 to 9; other decimal digits the pattern would accept are not modelled.
- Scope: address parsing and public-address tables are inputs; message texts are reasons.
- Risk: scores of single findings and exposure points are inputs over the reals; the organization's headline score, levels and events are not modelled.
- Versions: case and white space are those of ASCII; bounds of ranges are taken as parsed.
- Notifications, reports, dashboards, the API, adapters, authentication and the frontend.
